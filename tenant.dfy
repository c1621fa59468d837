/**
 * `Tenant` and the part of its hierarchy `getNodeContext` reads: the country,
 * city, sector and category relations, each possibly missing. Columns the
 * schema declares NOT NULL are plain strings; nullable ones are `Option`s.
 */
module Tenants {
  import opened Values

  datatype Country = Country(code: string, defaultLocale: string, processingRegion: string, residencyClass: string)

  datatype City = City(slug: Option<string>)

  datatype Sector = Sector(slug: Option<string>)

  /** A category; `hasParent` says whether its `parent` relation resolves to a row. */
  datatype Category = Category(slug: Option<string>, hasParent: bool)

  /** A tenant row with its relations loaded; a missing `branding` reads as an empty array. */
  datatype Tenant = Tenant(
    uuid: Option<string>,
    handle: Option<string>,
    name: string,
    branding: map<string, Json>,
    country: Option<Country>,
    city: Option<City>,
    sector: Option<Sector>,
    category: Option<Category>)

  const DEFAULT_LOCALE := "ar-SA"
  const DEFAULT_PROCESSING_REGION := "me-central-1"
  const DEFAULT_RESIDENCY_CLASS := "sovereign"

  /** The array `getNodeContext` returns, one field per key. */
  datatype TenantContext = TenantContext(
    country: string,
    cityOrTheme: string,
    sector: string,
    category: string,
    subcategory: Option<string>,
    tenant: Option<string>,
    brand: Json,
    locale: string,
    processingRegion: string,
    residencyClass: string)

  /** `$rel?->slug ?? ''`. */
  function SlugOr(slug: Option<Option<string>>): string
  {
    if slug.Some? && slug.value.Some? then slug.value.value else ""
  }

  function CitySlug(c: Option<City>): Option<Option<string>>
  {
    if c.Some? then Some(c.value.slug) else None
  }

  function SectorSlug(s: Option<Sector>): Option<Option<string>>
  {
    if s.Some? then Some(s.value.slug) else None
  }

  function CategorySlug(c: Option<Category>): Option<Option<string>>
  {
    if c.Some? then Some(c.value.slug) else None
  }

  /** `$a ?? $b` on nullable strings. */
  function OrElse(a: Option<string>, b: Option<string>): Option<string>
  {
    if a.Some? then a else b
  }

  /** `Tenant::getNodeContext`: the tenant's place in the hierarchy, with fallbacks. */
  function GetNodeContext(t: Tenant): (ctx: TenantContext)
    ensures ctx.country == (if t.country.Some? then t.country.value.code else "")
    ensures t.city.Some? && t.city.value.slug.Some? ==> ctx.cityOrTheme == t.city.value.slug.value
    ensures t.city.None? || t.city.value.slug.None? ==> ctx.cityOrTheme == ""
    ensures t.sector.Some? && t.sector.value.slug.Some? ==> ctx.sector == t.sector.value.slug.value
    ensures t.sector.None? || t.sector.value.slug.None? ==> ctx.sector == ""
    ensures t.category.Some? && t.category.value.slug.Some? ==> ctx.category == t.category.value.slug.value
    ensures t.category.None? || t.category.value.slug.None? ==> ctx.category == ""
    ensures t.category.Some? && t.category.value.hasParent ==> ctx.subcategory == t.category.value.slug
    ensures t.category.None? || !t.category.value.hasParent ==> ctx.subcategory == Some("")
    ensures t.handle.Some? ==> ctx.tenant == t.handle
    ensures t.handle.None? ==> ctx.tenant == t.uuid
    ensures Supplied(t.branding, "name") ==> ctx.brand == t.branding["name"]
    ensures !Supplied(t.branding, "name") ==> ctx.brand == JStr(t.name)
    ensures ctx.locale == (if t.country.Some? then t.country.value.defaultLocale else DEFAULT_LOCALE)
    ensures ctx.processingRegion == (if t.country.Some? then t.country.value.processingRegion else DEFAULT_PROCESSING_REGION)
    ensures ctx.residencyClass == (if t.country.Some? then t.country.value.residencyClass else DEFAULT_RESIDENCY_CLASS)
  {
    var hasCountry := t.country.Some?;
    TenantContext(
      if hasCountry then t.country.value.code else "",
      SlugOr(CitySlug(t.city)),
      SlugOr(SectorSlug(t.sector)),
      SlugOr(CategorySlug(t.category)),
      if t.category.Some? && t.category.value.hasParent then t.category.value.slug else Some(""),
      OrElse(t.handle, t.uuid),
      Coalesce(t.branding, "name", JStr(t.name)),
      if hasCountry then t.country.value.defaultLocale else DEFAULT_LOCALE,
      if hasCountry then t.country.value.processingRegion else DEFAULT_PROCESSING_REGION,
      if hasCountry then t.country.value.residencyClass else DEFAULT_RESIDENCY_CLASS)
  }

  function OptionJson(s: Option<string>): Json
  {
    if s.Some? then JStr(s.value) else JNull
  }

  /** The keys of the array `getNodeContext` returns. */
  const TENANT_CONTEXT_KEYS: set<string> := {"country", "cityOrTheme", "sector", "category", "subcategory",
    "tenant", "brand", "locale", "processingRegion", "residencyClass"}

  /**
   * The context as the PHP array: exactly the ten keys above, so none of
   * `channel`, `surface`, `persona`, `theme` or `version`; a null `tenant` or
   * `subcategory` is a null entry.
   */
  function ToArray(ctx: TenantContext): (a: map<string, Json>)
    ensures a.Keys == TENANT_CONTEXT_KEYS
    ensures a["country"] == JStr(ctx.country) && a["cityOrTheme"] == JStr(ctx.cityOrTheme)
    ensures a["tenant"] == OptionJson(ctx.tenant) && a["brand"] == ctx.brand
  {
    map[
      "country" := JStr(ctx.country),
      "cityOrTheme" := JStr(ctx.cityOrTheme),
      "sector" := JStr(ctx.sector),
      "category" := JStr(ctx.category),
      "subcategory" := OptionJson(ctx.subcategory),
      "tenant" := OptionJson(ctx.tenant),
      "brand" := ctx.brand,
      "locale" := JStr(ctx.locale),
      "processingRegion" := JStr(ctx.processingRegion),
      "residencyClass" := JStr(ctx.residencyClass)]
  }

  /** A tenant without relations falls back to the fixed defaults everywhere. */
  lemma BareTenantContext(uuid: string, name: string)
    ensures GetNodeContext(Tenant(Some(uuid), None, name, map[], None, None, None, None))
         == TenantContext("", "", "", "", Some(""), Some(uuid), JStr(name), "ar-SA", "me-central-1", "sovereign")
  {
  }

  /** True when `where('handle', $key)->orWhere('uuid', $key)` matches the tenant. */
  predicate MatchesKey(t: Tenant, key: string)
  {
    t.handle == Some(key) || t.uuid == Some(key)
  }

  /** `->first()` of that query, taking the table's storage order. */
  function FindTenant(tenants: seq<Tenant>, key: string): (r: Option<Tenant>)
    ensures r.None? <==> forall i :: 0 <= i < |tenants| ==> !MatchesKey(tenants[i], key)
    ensures r.Some? ==> exists i :: 0 <= i < |tenants| && tenants[i] == r.value && MatchesKey(tenants[i], key)
                          && forall j :: 0 <= j < i ==> !MatchesKey(tenants[j], key)
  {
    if tenants == [] then None
    else if MatchesKey(tenants[0], key) then Some(tenants[0])
    else
      var r := FindTenant(tenants[1..], key);
      assert r.Some? ==> exists i :: 0 <= i < |tenants[1..]| && tenants[1..][i] == r.value && MatchesKey(tenants[1..][i], key)
                          && forall j :: 0 <= j < i ==> !MatchesKey(tenants[1..][j], key);
      if r.Some? then
        var i :| 0 <= i < |tenants[1..]| && tenants[1..][i] == r.value && MatchesKey(tenants[1..][i], key)
                  && forall j :: 0 <= j < i ==> !MatchesKey(tenants[1..][j], key);
        assert tenants[i + 1] == r.value;
        assert forall j :: 1 <= j < i + 1 ==> tenants[j] == tenants[1..][j - 1];
        r
      else
        assert forall i :: 1 <= i < |tenants| ==> tenants[i] == tenants[1..][i - 1];
        r
  }
}
