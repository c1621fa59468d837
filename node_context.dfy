/**
 * `NodeContext`: the fifteen tags a request carries through the platform
 * (where in the hierarchy, which tenant, which channel and surface, which
 * locale and data-residency rules). It is built from request signals or from
 * an array with defaults, can be filled in from the request's tenant, and
 * checks its required fields.
 */
module NodeContexts {
  import opened Values
  import Tenants

  /** The values of the fifteen public fields. */
  datatype ContextValue = ContextValue(
    country: string,
    cityOrTheme: string,
    sector: string,
    category: string,
    subcategory: string,
    tenant: string,
    channel: string,
    surface: string,
    persona: string,
    brand: string,
    theme: string,
    locale: string,
    processingRegion: string,
    residencyClass: string,
    version: string)

  /** The fifteen fields, by name. */
  datatype FieldName =
    | Country | CityOrTheme | Sector | Category | Subcategory | Tenant | Channel | Surface
    | Persona | Brand | Theme | Locale | ProcessingRegion | ResidencyClass | Version

  const ALL_FIELDS: set<FieldName> := {Country, CityOrTheme, Sector, Category, Subcategory, Tenant, Channel,
    Surface, Persona, Brand, Theme, Locale, ProcessingRegion, ResidencyClass, Version}

  lemma EveryFieldListed(f: FieldName)
    ensures f in ALL_FIELDS
  {
  }

  /** The PHP property name of each field. */
  function Name(f: FieldName): string
  {
    match f
    case Country => "country"
    case CityOrTheme => "cityOrTheme"
    case Sector => "sector"
    case Category => "category"
    case Subcategory => "subcategory"
    case Tenant => "tenant"
    case Channel => "channel"
    case Surface => "surface"
    case Persona => "persona"
    case Brand => "brand"
    case Theme => "theme"
    case Locale => "locale"
    case ProcessingRegion => "processingRegion"
    case ResidencyClass => "residencyClass"
    case Version => "version"
  }

  function Field(c: ContextValue, f: FieldName): string
  {
    match f
    case Country => c.country
    case CityOrTheme => c.cityOrTheme
    case Sector => c.sector
    case Category => c.category
    case Subcategory => c.subcategory
    case Tenant => c.tenant
    case Channel => c.channel
    case Surface => c.surface
    case Persona => c.persona
    case Brand => c.brand
    case Theme => c.theme
    case Locale => c.locale
    case ProcessingRegion => c.processingRegion
    case ResidencyClass => c.residencyClass
    case Version => c.version
  }

  /** The constructor's default for each field; the last three come from the configuration. */
  function DefaultFor(f: FieldName): string
  {
    match f
    case Channel => "api"
    case Surface => "ops-dashboard"
    case Persona => "admin"
    case Version => "1"
    case Locale => Tenants.DEFAULT_LOCALE
    case ProcessingRegion => Tenants.DEFAULT_PROCESSING_REGION
    case ResidencyClass => Tenants.DEFAULT_RESIDENCY_CLASS
    case _ => ""
  }

  /**
   * The array handed to the constructor, keyed by field; an entry may be null.
   * Keys that name no field are never read, so they are not represented.
   */
  type ContextData = map<FieldName, Option<string>>

  /** `$data[$k] ?? $d`. */
  function Pick(data: ContextData, f: FieldName, d: string): string
  {
    if f in data && data[f].Some? then data[f].value else d
  }

  /** What `new NodeContext($data)` holds: each field from the array unless absent or null, else its default. */
  function WithDefaults(data: ContextData): ContextValue
  {
    ContextValue(
      Pick(data, Country, ""),
      Pick(data, CityOrTheme, ""),
      Pick(data, Sector, ""),
      Pick(data, Category, ""),
      Pick(data, Subcategory, ""),
      Pick(data, Tenant, ""),
      Pick(data, Channel, "api"),
      Pick(data, Surface, "ops-dashboard"),
      Pick(data, Persona, "admin"),
      Pick(data, Brand, ""),
      Pick(data, Theme, ""),
      Pick(data, Locale, Tenants.DEFAULT_LOCALE),
      Pick(data, ProcessingRegion, Tenants.DEFAULT_PROCESSING_REGION),
      Pick(data, ResidencyClass, Tenants.DEFAULT_RESIDENCY_CLASS),
      Pick(data, Version, "1"))
  }

  /** Each field is the array's entry unless that is absent or null, and the field's default otherwise. */
  lemma WithDefaultsField(data: ContextData, f: FieldName)
    ensures Field(WithDefaults(data), f) == (if f in data && data[f].Some? then data[f].value else DefaultFor(f))
  {
  }

  /** `new NodeContext()`: the defaults themselves. */
  lemma EmptyArrayDefaults()
    ensures WithDefaults(map[]) == ContextValue("", "", "", "", "", "", "api", "ops-dashboard", "admin", "", "",
                                                "ar-SA", "me-central-1", "sovereign", "1")
  {
  }

  /** A null entry counts as missing: it gets the default, while `""` is kept. */
  lemma NullGetsDefaultEmptyIsKept(data: ContextData)
    ensures WithDefaults(data[Channel := None]).channel == "api"
    ensures WithDefaults(data[Channel := Some("")]).channel == ""
  {
  }

  // ---------------------------------------------------------------------------
  // Request signals
  // ---------------------------------------------------------------------------

  const HEADER_PREFIX := "X-CityOS-"
  const COOKIE_PREFIX := "cityos_"

  /**
   * The four sources `fromRequest` consults: headers, route parameters,
   * cookies and the `node_context` object of the request body.
   */
  datatype Request = Request(
    headers: map<string, string>,
    route: map<string, string>,
    cookies: map<string, string>,
    input: map<string, string>)

  function UpperChar(ch: char): char
  {
    if 'a' <= ch <= 'z' then (ch as int - 32) as char else ch
  }

  function LowerChar(ch: char): char
  {
    if 'A' <= ch <= 'Z' then (ch as int + 32) as char else ch
  }

  /** `ucfirst` on ASCII letters. */
  function UcFirst(s: string): string
  {
    if s == "" then s else [UpperChar(s[0])] + s[1..]
  }

  /** `strtolower` on ASCII letters. */
  function Lower(s: string): (r: string)
    ensures |r| == |s|
    ensures forall i :: 0 <= i < |s| ==> r[i] == LowerChar(s[i])
  {
    if s == "" then "" else [LowerChar(s[0])] + Lower(s[1..])
  }

  function HeaderName(signal: string): string
  {
    HEADER_PREFIX + UcFirst(signal)
  }

  function CookieName(signal: string): string
  {
    COOKIE_PREFIX + Lower(signal)
  }


  /** The header and cookie under which the `City` signal is looked up. */
  lemma CitySignalKeys()
    ensures HeaderName("City") == "X-CityOS-City" && CookieName("City") == "cityos_city"
  {
    var l := Lower("City");
    assert l[0] == 'c' && l[1..] == "ity";
  }

  /** The `$resolve` closure: header, then route, then cookie, then body, then `''`; a present `''` still wins. */
  function Resolve(req: Request, signal: string): string
  {
    var h := HeaderName(signal);
    var k := CookieName(signal);
    if h in req.headers then req.headers[h]
    else if signal in req.route then req.route[signal]
    else if k in req.cookies then req.cookies[k]
    else if signal in req.input then req.input[signal]
    else ""
  }

  /** The precedence of the sources: the first one present decides, and with none present the value is `''`. */
  lemma ResolveOrder(req: Request, signal: string)
    ensures HeaderName(signal) in req.headers ==> Resolve(req, signal) == req.headers[HeaderName(signal)]
    ensures HeaderName(signal) !in req.headers && signal in req.route ==> Resolve(req, signal) == req.route[signal]
    ensures (HeaderName(signal) !in req.headers && signal !in req.route && CookieName(signal) in req.cookies)
              ==> Resolve(req, signal) == req.cookies[CookieName(signal)]
    ensures (HeaderName(signal) !in req.headers && signal !in req.route && CookieName(signal) !in req.cookies
             && signal in req.input) ==> Resolve(req, signal) == req.input[signal]
    ensures (HeaderName(signal) !in req.headers && signal !in req.route && CookieName(signal) !in req.cookies
             && signal !in req.input) ==> Resolve(req, signal) == ""
  {
  }

  /** A header beats every other source, whatever they hold. */
  lemma HeaderWins(req: Request, signal: string, value: string)
    ensures Resolve(req.(headers := req.headers[HeaderName(signal) := value]), signal) == value
  {
  }

  /** The signal `fromRequest` resolves for each field, as written in its array. */
  function Signal(f: FieldName): string
  {
    match f
    case Country => "Country"
    case CityOrTheme => "City"
    case Sector => "Sector"
    case Category => "Category"
    case Subcategory => "Subcategory"
    case Tenant => "Tenant"
    case Channel => "Channel"
    case Surface => "Surface"
    case Persona => "Persona"
    case Brand => "Brand"
    case Theme => "Theme"
    case Locale => "Locale"
    case ProcessingRegion => "ProcessingRegion"
    case ResidencyClass => "ResidencyClass"
    case Version => "Version"
  }

  /** The naming rule behind that array: `cityOrTheme` reads `City`, every other field its capitalised name. */
  function SignalName(f: FieldName): string
  {
    if f == CityOrTheme then "City" else UcFirst(Name(f))
  }

  /** The capitalisation rule, character by character, for the hierarchy fields. */
  lemma CapitalisedHierarchySignals(f: FieldName)
    requires f in {Country, Sector, Category, Subcategory, Tenant}
    ensures |Signal(f)| == |Name(f)| && Signal(f)[0] == UpperChar(Name(f)[0])
    ensures forall i :: 1 <= i < |Name(f)| ==> Signal(f)[i] == Name(f)[i]
  {
  }

  /** The capitalisation rule for the presentation fields. */
  lemma CapitalisedPresentationSignals(f: FieldName)
    requires f in {Channel, Surface, Persona, Brand, Theme}
    ensures |Signal(f)| == |Name(f)| && Signal(f)[0] == UpperChar(Name(f)[0])
    ensures forall i :: 1 <= i < |Name(f)| ==> Signal(f)[i] == Name(f)[i]
  {
  }

  /** The capitalisation rule for the locale, residency and version fields. */
  lemma CapitalisedRegionalSignals(f: FieldName)
    requires f in {Locale, ProcessingRegion, ResidencyClass, Version}
    ensures |Signal(f)| == |Name(f)| && Signal(f)[0] == UpperChar(Name(f)[0])
    ensures forall i :: 1 <= i < |Name(f)| ==> Signal(f)[i] == Name(f)[i]
  {
  }

  /** Every field but `cityOrTheme` is read from its own name with the first letter capitalised. */
  lemma {:induction false} SignalFollowsNamingRule(f: FieldName)
    ensures Signal(f) == SignalName(f)
  {
    if f != CityOrTheme {
      if f in {Country, Sector, Category, Subcategory, Tenant} {
        CapitalisedHierarchySignals(f);
      } else if f in {Channel, Surface, Persona, Brand, Theme} {
        CapitalisedPresentationSignals(f);
      } else {
        CapitalisedRegionalSignals(f);
      }
      var n := Name(f);
      var u := UcFirst(n);
      assert |u| == |n|;
      assert forall i :: 0 <= i < |u| ==> u[i] == Signal(f)[i];
    }
  }

  /** The array `fromRequest` hands to the constructor: every field, each with its resolved signal. */
  function RequestData(req: Request): (d: ContextData)
    ensures forall f :: f in d && d[f] == Some(Resolve(req, Signal(f)))
  {
    forall f ensures f in ALL_FIELDS { EveryFieldListed(f); }
    map f | f in ALL_FIELDS :: Some(Resolve(req, Signal(f)))
  }

  /**
   * `fromRequest` never reaches the constructor's defaults: every entry it
   * passes is a string, so each field is exactly its signal, `''` when absent.
   */
  lemma FromRequestIgnoresDefaults(req: Request, f: FieldName)
    ensures Field(WithDefaults(RequestData(req)), f) == Resolve(req, SignalName(f))
  {
    WithDefaultsField(RequestData(req), f);
    SignalFollowsNamingRule(f);
  }

  /** A request without any signal gives the all-empty context, not the defaults. */
  lemma SilentRequestIsEmpty(f: FieldName)
    ensures Field(WithDefaults(RequestData(Request(map[], map[], map[], map[]))), f) == ""
  {
    WithDefaultsField(RequestData(Request(map[], map[], map[], map[])), f);
  }

  // ---------------------------------------------------------------------------
  // Filling in from the tenant
  // ---------------------------------------------------------------------------

  /** The fields `setResolvedTenant` may fill. */
  const MERGED_FIELDS: set<FieldName> := {Country, CityOrTheme, Sector, Category, Locale, ProcessingRegion, ResidencyClass}

  /** The tenant context's entry for a merged field. */
  function TenantField(tc: Tenants.TenantContext, f: FieldName): string
  {
    match f
    case Country => tc.country
    case CityOrTheme => tc.cityOrTheme
    case Sector => tc.sector
    case Category => tc.category
    case Locale => tc.locale
    case ProcessingRegion => tc.processingRegion
    case ResidencyClass => tc.residencyClass
    case _ => ""
  }

  /** The merge of `setResolvedTenant`: `$this->f ?: $ctx['f']` on the seven merged fields. */
  function Enrich(c: ContextValue, tc: Tenants.TenantContext): ContextValue
  {
    c.(country := Elvis(c.country, tc.country),
       cityOrTheme := Elvis(c.cityOrTheme, tc.cityOrTheme),
       sector := Elvis(c.sector, tc.sector),
       category := Elvis(c.category, tc.category),
       locale := Elvis(c.locale, tc.locale),
       processingRegion := Elvis(c.processingRegion, tc.processingRegion),
       residencyClass := Elvis(c.residencyClass, tc.residencyClass))
  }

  /** A merged field takes the tenant's value exactly when it is empty; the other eight never change. */
  lemma EnrichField(c: ContextValue, tc: Tenants.TenantContext, f: FieldName)
    ensures f in MERGED_FIELDS ==>
              Field(Enrich(c, tc), f) == (if EmptyString(Field(c, f)) then TenantField(tc, f) else Field(c, f))
    ensures f !in MERGED_FIELDS ==> Field(Enrich(c, tc), f) == Field(c, f)
  {
  }

  /** The merge with a tenant's own context. */
  function MergeTenant(c: ContextValue, t: Tenants.Tenant): ContextValue
  {
    Enrich(c, Tenants.GetNodeContext(t))
  }

  /** A value that is already there, other than `''` and `'0'`, is never replaced. */
  lemma EnrichKeepsFilled(c: ContextValue, tc: Tenants.TenantContext, f: FieldName)
    requires !EmptyString(Field(c, f))
    ensures Field(Enrich(c, tc), f) == Field(c, f)
  {
    EnrichField(c, tc, f);
  }

  /** Merging the same tenant twice is merging it once. */
  lemma EnrichIdempotent(c: ContextValue, tc: Tenants.TenantContext)
    ensures Enrich(Enrich(c, tc), tc) == Enrich(c, tc)
  {
  }

  // ---------------------------------------------------------------------------
  // Field names as strings
  // ---------------------------------------------------------------------------

  /** The field a property name denotes, if any. */
  function FieldNamed(name: string): Option<FieldName>
  {
    if name == "country" then Some(Country)
    else if name == "cityOrTheme" then Some(CityOrTheme)
    else if name == "sector" then Some(Sector)
    else if name == "category" then Some(Category)
    else if name == "subcategory" then Some(Subcategory)
    else if name == "tenant" then Some(Tenant)
    else if name == "channel" then Some(Channel)
    else if name == "surface" then Some(Surface)
    else if name == "persona" then Some(Persona)
    else if name == "brand" then Some(Brand)
    else if name == "theme" then Some(Theme)
    else if name == "locale" then Some(Locale)
    else if name == "processingRegion" then Some(ProcessingRegion)
    else if name == "residencyClass" then Some(ResidencyClass)
    else if name == "version" then Some(Version)
    else None
  }

  lemma {:induction false} NameRoundTrip(f: FieldName)
    ensures FieldNamed(Name(f)) == Some(f)
  {
    match f
    case Country =>
    case CityOrTheme =>
    case Sector =>
    case Category =>
    case Subcategory =>
    case Tenant =>
    case Channel =>
    case Surface =>
    case Persona =>
    case Brand =>
    case Theme =>
    case Locale =>
    case ProcessingRegion =>
    case ResidencyClass =>
    case Version =>
  }

  /** `$this->{$name}`: the property of that name; a name that is no field reads as null, written `""` here. */
  function Property(c: ContextValue, name: string): string
  {
    if FieldNamed(name).Some? then Field(c, FieldNamed(name).value) else ""
  }

  const PROPERTY_NAMES: set<string> := set f | f in ALL_FIELDS :: Name(f)

  /** `toArray`: the fifteen property names, each with its field's value. */
  function ContextArray(c: ContextValue): (a: map<string, string>)
    ensures forall k :: k in a ==> FieldNamed(k).Some?
    ensures forall f :: Name(f) in a && a[Name(f)] == Field(c, f)
  {
    forall f ensures Name(f) in PROPERTY_NAMES && FieldNamed(Name(f)) == Some(f) {
      EveryFieldListed(f);
      NameRoundTrip(f);
    }
    map k | k in PROPERTY_NAMES :: Property(c, k)
  }

  /** True when the named property is set, in the sense of PHP's `empty`; a name that is no field reads as null. */
  predicate Filled(c: ContextValue, name: string)
  {
    !EmptyString(Property(c, name))
  }

  /**
   * `!empty($this->{$name})` inside the class: a field is filled in the `empty()`
   * sense, and the private `resolvedTenant` is filled when it holds a tenant.
   */
  predicate Present(c: ContextValue, held: Option<Tenants.Tenant>, name: string)
  {
    if name == "resolvedTenant" then held.Some? else Filled(c, name)
  }

  /** The configured required fields. */
  const REQUIRED_FIELDS: seq<string> := ["country", "tenant"]

  /** With the default configuration a context is valid iff it names a country and a tenant. */
  lemma DefaultRequiredFields(c: ContextValue)
    ensures (forall i :: 0 <= i < |REQUIRED_FIELDS| ==> Filled(c, REQUIRED_FIELDS[i]))
        <==> !EmptyString(c.country) && !EmptyString(c.tenant)
  {
    assert FieldNamed("tenant") == Some(Tenant);
    assert REQUIRED_FIELDS[0] == "country" && REQUIRED_FIELDS[1] == "tenant";
  }

  // ---------------------------------------------------------------------------
  // Tenant resolution
  // ---------------------------------------------------------------------------

  /** True when `resolveTenant` has to query the tenant table. */
  predicate NeedsLookup(held: Option<Tenants.Tenant>, key: string)
  {
    held.None? && !EmptyString(key)
  }

  /** What `resolveTenant` returns: the memo, else null for an empty key, else the lookup. */
  function TenantFor(held: Option<Tenants.Tenant>, key: string, tenants: seq<Tenants.Tenant>): (r: Option<Tenants.Tenant>)
    ensures held.Some? ==> r == held
    ensures held.None? && EmptyString(key) ==> r.None?
    ensures NeedsLookup(held, key) ==> r == Tenants.FindTenant(tenants, key)
    ensures r.Some? && held.None? ==> Tenants.MatchesKey(r.value, key)
  {
    if held.Some? then held
    else if EmptyString(key) then None
    else Tenants.FindTenant(tenants, key)
  }

  /** Once `resolveTenant` has found a tenant, later calls do not query again. */
  lemma FoundTenantIsMemoised(held: Option<Tenants.Tenant>, key: string, tenants: seq<Tenants.Tenant>)
    requires TenantFor(held, key, tenants).Some?
    ensures !NeedsLookup(TenantFor(held, key, tenants), key)
  {
  }

  /** A lookup that finds nothing leaves nothing held, so the next call queries again. */
  lemma MissIsNotMemoised(key: string, tenants: seq<Tenants.Tenant>)
    requires !EmptyString(key) && forall i :: 0 <= i < |tenants| ==> !Tenants.MatchesKey(tenants[i], key)
    ensures NeedsLookup(TenantFor(None, key, tenants), key)
  {
  }

  // ---------------------------------------------------------------------------
  // The object
  // ---------------------------------------------------------------------------

  /**
   * The object. Its fifteen public properties are held together as one
   * record, `fields`; each assignment to a property is an update of the
   * matching component.
   */
  class NodeContext {
    var fields: ContextValue
    var resolvedTenant: Option<Tenants.Tenant>
    /** How many times the tenant table has been queried on this object's behalf. */
    ghost var lookups: nat

    function Value(): ContextValue
      reads this
    {
      fields
    }

    /** `new NodeContext($data)`. */
    constructor (data: ContextData)
      ensures Value() == WithDefaults(data)
      ensures resolvedTenant.None? && lookups == 0
    {
      fields := ContextValue(
        Pick(data, Country, ""),
        Pick(data, CityOrTheme, ""),
        Pick(data, Sector, ""),
        Pick(data, Category, ""),
        Pick(data, Subcategory, ""),
        Pick(data, Tenant, ""),
        Pick(data, Channel, "api"),
        Pick(data, Surface, "ops-dashboard"),
        Pick(data, Persona, "admin"),
        Pick(data, Brand, ""),
        Pick(data, Theme, ""),
        Pick(data, Locale, Tenants.DEFAULT_LOCALE),
        Pick(data, ProcessingRegion, Tenants.DEFAULT_PROCESSING_REGION),
        Pick(data, ResidencyClass, Tenants.DEFAULT_RESIDENCY_CLASS),
        Pick(data, Version, "1"));
      resolvedTenant := None;
      lookups := 0;
    }

    /** `NodeContext::fromRequest`. */
    static method FromRequest(req: Request) returns (c: NodeContext)
      ensures fresh(c)
      ensures c.Value() == WithDefaults(RequestData(req)) && c.resolvedTenant.None? && c.lookups == 0
    {
      c := new NodeContext(RequestData(req));
    }

    /** `resolveTenant`: the memo when set; null for an empty key; else the first match, memoised. */
    method ResolveTenant(tenants: seq<Tenants.Tenant>) returns (r: Option<Tenants.Tenant>)
      modifies this
      ensures r == TenantFor(old(resolvedTenant), fields.tenant, tenants)
      ensures resolvedTenant == r
      ensures lookups == old(lookups) + (if NeedsLookup(old(resolvedTenant), fields.tenant) then 1 else 0)
      ensures Value() == old(Value())
    {
      if resolvedTenant.Some? {
        return resolvedTenant;
      }
      if EmptyString(fields.tenant) {
        return None;
      }
      resolvedTenant := Tenants.FindTenant(tenants, fields.tenant);
      lookups := lookups + 1;
      r := resolvedTenant;
    }

    /** `setResolvedTenant`: holds the tenant and, when there is one, fills the empty merged fields from it. */
    method SetResolvedTenant(t: Option<Tenants.Tenant>)
      modifies this
      ensures resolvedTenant == t && lookups == old(lookups)
      ensures Value() == (if t.Some? then MergeTenant(old(Value()), t.value) else old(Value()))
    {
      resolvedTenant := t;
      if t.Some? {
        var ctx := Tenants.GetNodeContext(t.value);
        fields := fields.(country := Elvis(fields.country, ctx.country));
        fields := fields.(cityOrTheme := Elvis(fields.cityOrTheme, ctx.cityOrTheme));
        fields := fields.(sector := Elvis(fields.sector, ctx.sector));
        fields := fields.(category := Elvis(fields.category, ctx.category));
        fields := fields.(locale := Elvis(fields.locale, ctx.locale));
        fields := fields.(processingRegion := Elvis(fields.processingRegion, ctx.processingRegion));
        fields := fields.(residencyClass := Elvis(fields.residencyClass, ctx.residencyClass));
      }
    }

    /** `toArray`. */
    function ToArray(): (a: map<string, string>)
      reads this
      ensures a == ContextArray(Value())
    {
      ContextArray(fields)
    }

    /** `isValid` against the given required fields: stops at the first empty one. */
    method IsValid(required: seq<string>) returns (ok: bool)
      ensures ok <==> forall i :: 0 <= i < |required| ==> Present(Value(), resolvedTenant, required[i])
    {
      var i := 0;
      while i < |required|
        invariant 0 <= i <= |required|
        invariant forall j :: 0 <= j < i ==> Present(fields, resolvedTenant, required[j])
      {
        if !Present(fields, resolvedTenant, required[i]) {
          return false;
        }
        i := i + 1;
      }
      return true;
    }
  }

  // ---------------------------------------------------------------------------
  // The middleware's composition
  // ---------------------------------------------------------------------------

  /**
   * The context `ResolveNodeContext::handle` attaches to a request: built from
   * the signals, then filled in from the tenant they name, when one is found.
   */
  function MiddlewareContext(req: Request, tenants: seq<Tenants.Tenant>): ContextValue
  {
    var c := WithDefaults(RequestData(req));
    var t := if EmptyString(c.tenant) then None else TenantFor(None, c.tenant, tenants);
    if t.Some? then MergeTenant(c, t.value) else c
  }

  /** The middleware's steps on the object. */
  method HandleRequest(req: Request, tenants: seq<Tenants.Tenant>) returns (nc: NodeContext)
    ensures fresh(nc)
    ensures nc.Value() == MiddlewareContext(req, tenants)
  {
    nc := NodeContext.FromRequest(req);
    if !EmptyString(nc.fields.tenant) {
      var t := nc.ResolveTenant(tenants);
      if t.Some? {
        nc.SetResolvedTenant(t);
      }
    }
  }

  /** Whatever the request states explicitly (other than `''` or `'0'`) survives the tenant merge. */
  lemma {:induction false} RequestSignalsWin(req: Request, tenants: seq<Tenants.Tenant>, f: FieldName)
    requires !EmptyString(Resolve(req, SignalName(f)))
    ensures Field(MiddlewareContext(req, tenants), f) == Resolve(req, SignalName(f))
  {
    FromRequestIgnoresDefaults(req, f);
    var c := WithDefaults(RequestData(req));
    var t := if EmptyString(c.tenant) then None else TenantFor(None, c.tenant, tenants);
    if t.Some? {
      EnrichKeepsFilled(c, Tenants.GetNodeContext(t.value), f);
    }
  }

  /** A request that names no tenant gets exactly its own signals. */
  lemma {:induction false} NoTenantNoMerge(req: Request, tenants: seq<Tenants.Tenant>)
    requires EmptyString(Resolve(req, Signal(Tenant)))
    ensures MiddlewareContext(req, tenants) == WithDefaults(RequestData(req))
  {
    var d := RequestData(req);
    assert Pick(d, Tenant, "") == Resolve(req, Signal(Tenant));
    assert WithDefaults(d).tenant == Pick(d, Tenant, "");
  }
}
