/**
 * Tenant routing: every request names a tenant through its host's subdomain
 * (or the configured default slug), the platform registry maps the slug to the
 * active tenant's database URI, and the session sends each query either to the
 * platform database, to that tenant's database or to the default one.
 * Also the tenant registry row (`Tenant`) with its subscription window.
 */
module Tenancy {
  import opened Wrappers
  import opened Text

  // ---------------------------------------------------------------- registry

  /** A row of the platform `tenants` table; dates are day numbers. */
  datatype Tenant = Tenant(
    id: int, name: string, slug: string, dbUri: string, logo: Option<string>,
    startDate: Option<int>, endDate: Option<int>, isActive: bool)

  /** `Tenant.is_expired`: only a tenant with an end date can expire, and only after that day. */
  predicate IsExpired(t: Tenant, today: int)
    ensures IsExpired(t, today) ==> t.endDate.Some? && t.endDate.value < today
  {
    t.endDate.Some? && today > t.endDate.value
  }

  /** A tenant is still live on its end date and expiry, once reached, lasts. */
  lemma ExpiryWindow(t: Tenant, today: int, later: int)
    ensures t.endDate.None? ==> !IsExpired(t, today)
    ensures t.endDate.Some? ==> !IsExpired(t, t.endDate.value) && IsExpired(t, t.endDate.value + 1)
    ensures IsExpired(t, today) && today <= later ==> IsExpired(t, later)
  {
  }

  /** No two registry rows share a slug (the column is unique). */
  predicate UniqueSlugs(registry: seq<Tenant>)
  {
    forall i, j :: 0 <= i < j < |registry| ==> registry[i].slug != registry[j].slug
  }

  /** `Tenant.query.filter_by(slug=slug, is_active=True).first()`. */
  function ActiveTenant(registry: seq<Tenant>, slug: string): (r: Option<Tenant>)
    ensures r.Some? ==> r.value in registry && r.value.slug == slug && r.value.isActive
    ensures r.None? <==> forall i :: 0 <= i < |registry| ==> !(registry[i].slug == slug && registry[i].isActive)
  {
    if registry == [] then None
    else if registry[0].slug == slug && registry[0].isActive then Some(registry[0])
    else
      var rest := ActiveTenant(registry[1..], slug);
      assert forall i :: 1 <= i < |registry| ==> registry[i] == registry[1..][i - 1];
      rest
  }

  /** With unique slugs the lookup finds the one active tenant of that slug, if there is one. */
  lemma ActiveTenantIsTheOne(registry: seq<Tenant>, slug: string, i: nat)
    requires UniqueSlugs(registry)
    requires i < |registry| && registry[i].slug == slug && registry[i].isActive
    ensures ActiveTenant(registry, slug) == Some(registry[i])
  {
    var r := ActiveTenant(registry, slug);
    var j :| 0 <= j < |registry| && registry[j] == r.value;
    assert j == i;
  }

  // ------------------------------------------------------------ host parsing

  /** `host.split(":")[0]`: the host without its port. */
  function HostOnly(host: string): (h: string)
    ensures ':' !in h && |h| <= |host| && host[..|h|] == h
    ensures ':' !in host ==> h == host
  {
    if ':' in host then host[..IndexOf(host, ':')] else host
  }

  /** The first label of a host, `host.split(".")[0]`. */
  function FirstLabel(h: string): (l: string)
    ensures '.' !in l && |l| <= |h| && h[..|l|] == l
  {
    if '.' in h then h[..IndexOf(h, '.')] else h
  }

  /** Number of labels of `h.split(".")`, i.e. one more than the dots. */
  function LabelCount(h: string): (n: nat)
    ensures n >= 1
  {
    |Split(h, '.')|
  }

  predicate IsLoopback(h: string)
  {
    h == "localhost" || EndsWith(h, ".localhost") || StartsWith(h, "127.")
  }

  /**
   * `_extract_subdomain` (defined, never called): lower-cased, port dropped;
   * loopback hosts have no subdomain; a dot-free non-empty label in front of
   * ".base" is the subdomain; otherwise a host with three or more labels names
   * its first label.
   */
  function ExtractSubdomain(host: string, baseDomain: string): (r: Option<string>)
    ensures IsLoopback(Lower(HostOnly(host))) ==> r.None?
    ensures r.Some? ==> StartsWith(Lower(HostOnly(host)), r.value)
  {
    var h := Lower(HostOnly(host));
    var b := Lower(baseDomain);
    if IsLoopback(h) then None
    else if b != [] && EndsWith(h, "." + b) && h[..|h| - |b| - 1] != [] && '.' !in h[..|h| - |b| - 1] then
      Some(h[..|h| - |b| - 1])
    else if LabelCount(h) >= 3 then Some(FirstLabel(h))
    else None
  }

  lemma LowerKeepsColon(s: string)
    ensures ':' in s <==> ':' in Lower(s)
  {
    if ':' in Lower(s) {
      var i :| 0 <= i < |s| && Lower(s)[i] == ':';
      assert s[i] == ':';
    }
    if ':' in s {
      var i :| 0 <= i < |s| && s[i] == ':';
      assert Lower(s)[i] == ':';
    }
  }

  /** A subdomain found by `_extract_subdomain` is one label: no dot and no port separator. */
  lemma ExtractedIsOneLabel(host: string, baseDomain: string)
    ensures var r := ExtractSubdomain(host, baseDomain);
            r.Some? ==> '.' !in r.value && ':' !in r.value
  {
    var h := Lower(HostOnly(host));
    LowerKeepsColon(HostOnly(host));
    var b := Lower(baseDomain);
    if b != [] && |b| + 1 <= |h| {
      var p := h[..|h| - |b| - 1];
      assert forall c :: c in p ==> c in h;
    }
    var l := FirstLabel(h);
    assert forall c :: c in l ==> c in h;
  }

  /** A lower-case dot-free label in front of ".base" is that subdomain (for non-loopback hosts). */
  lemma ExtractsLabelBeforeBase(p: string, b: string)
    requires p != [] && b != [] && '.' !in p
    requires ':' !in p + "." + b && Lower(p + "." + b) == p + "." + b && Lower(b) == b
    requires !IsLoopback(p + "." + b)
    ensures ExtractSubdomain(p + "." + b, b) == Some(p)
  {
    var h := p + "." + b;
    assert HostOnly(h) == h;
    assert h[|h| - |b| - 1..] == "." + b;
    assert h[..|h| - |b| - 1] == p;
  }

  /**
   * `_get_subdomain_slug`: with a configured base domain and a port-free host
   * that ends with it but is not it, the host minus its last len(base)+1
   * characters; no lower-casing, and neither the removed character nor the
   * slug is checked for dots.
   */
  function SubdomainSlug(host: string, baseDomain: Option<string>): (r: Option<string>)
    ensures r.Some? ==> baseDomain.Some? && baseDomain.value != [] &&
                        |r.value| + |baseDomain.value| + 1 == |HostOnly(host)| &&
                        HostOnly(host) == HostOnly(host)[..|r.value|] + HostOnly(host)[|r.value|..] &&
                        HostOnly(host)[..|r.value|] == r.value && EndsWith(HostOnly(host), baseDomain.value)
    ensures baseDomain.None? || baseDomain.value == [] ==> r.None?
  {
    var h := HostOnly(host);
    if baseDomain.Some? && baseDomain.value != [] && EndsWith(h, baseDomain.value) && h != baseDomain.value then
      Some(h[..|h| - |baseDomain.value| - 1])
    else None
  }

  /** The slug is whatever precedes the base and one more character, dots and all. */
  lemma SlugDropsAnyOneSeparator(s: string, c: char, b: string)
    requires b != [] && ':' !in s + [c] + b
    ensures SubdomainSlug(s + [c] + b, Some(b)) == Some(s)
  {
    var h := s + [c] + b;
    assert HostOnly(h) == h;
    assert h[|h| - |b|..] == b;
    assert h[..|h| - |b| - 1] == s;
  }

  /** The bare base domain, or a host that does not end with it, has no slug. */
  lemma NoSlugOutsideBase(host: string, b: string)
    requires HostOnly(host) == b || !EndsWith(HostOnly(host), b)
    ensures SubdomainSlug(host, Some(b)).None?
  {
  }

  // -------------------------------------------------------- request binding

  /** The slug a request resolves to: a non-empty subdomain slug, else a non-empty default. */
  function RequestSlug(host: string, baseDomain: Option<string>, defaultSlug: Option<string>): (s: Option<string>)
    ensures s.Some? ==> s.value != []
    ensures s.Some? ==> SubdomainSlug(host, baseDomain) == s ||
                        ((SubdomainSlug(host, baseDomain).None? || SubdomainSlug(host, baseDomain) == Some([])) && defaultSlug == s)
  {
    var slug := SubdomainSlug(host, baseDomain);
    var chosen := if slug.None? || slug.value == [] then defaultSlug else slug;
    if chosen.None? || chosen.value == [] then None else chosen
  }

  /** The database URI `bind_tenant_database` opens an engine on, or None for platform-only mode. */
  function TenantEngine(registry: seq<Tenant>, host: string, baseDomain: Option<string>, defaultSlug: Option<string>): Option<string>
  {
    var slug := RequestSlug(host, baseDomain, defaultSlug);
    if slug.None? then None
    else
      var t := ActiveTenant(registry, slug.value);
      if t.None? then None else Some(t.value.dbUri)
  }

  /** An engine is only ever built for an active tenant whose slug the request resolved to. */
  lemma EngineOnlyForActiveTenant(registry: seq<Tenant>, host: string, baseDomain: Option<string>, defaultSlug: Option<string>)
    ensures var e := TenantEngine(registry, host, baseDomain, defaultSlug);
            e.Some? ==> exists i :: 0 <= i < |registry| && registry[i].isActive && registry[i].dbUri == e.value &&
                                    Some(registry[i].slug) == RequestSlug(host, baseDomain, defaultSlug)
  {
    var e := TenantEngine(registry, host, baseDomain, defaultSlug);
    if e.Some? {
      var slug := RequestSlug(host, baseDomain, defaultSlug);
      var t := ActiveTenant(registry, slug.value).value;
      var i :| 0 <= i < |registry| && registry[i] == t;
      assert registry[i].dbUri == e.value;
    }
  }

  /** Without a subdomain slug and without a default, the request runs in platform-only mode. */
  lemma NoSlugNoEngine(registry: seq<Tenant>, host: string, baseDomain: Option<string>, defaultSlug: Option<string>)
    requires SubdomainSlug(host, baseDomain).None? || SubdomainSlug(host, baseDomain) == Some([])
    requires defaultSlug.None? || defaultSlug == Some([])
    ensures TenantEngine(registry, host, baseDomain, defaultSlug).None?
  {
  }

  /** The active tenant of the subdomain's slug gets its own database. */
  lemma SubdomainTenantGetsItsDatabase(registry: seq<Tenant>, host: string, b: string, defaultSlug: Option<string>, i: nat)
    requires UniqueSlugs(registry) && i < |registry| && registry[i].isActive
    requires SubdomainSlug(host, Some(b)) == Some(registry[i].slug) && registry[i].slug != []
    ensures TenantEngine(registry, host, Some(b), defaultSlug) == Some(registry[i].dbUri)
  {
    ActiveTenantIsTheOne(registry, registry[i].slug, i);
  }

  /** Routes under these prefixes are never bound to a tenant. */
  predicate SkipsTenantBinding(path: string)
  {
    StartsWith(path, "/platform") || StartsWith(path, "/static")
  }

  /** `g.tenant_engine`: never assigned, explicitly None, or an engine on a database URI. */
  datatype EngineSlot = Unassigned | NoEngine | Engine(uri: string)

  /** The request-global object `g` as far as routing writes it. */
  class RequestGlobals {
    var tenantEngine: EngineSlot

    constructor ()
      ensures tenantEngine == Unassigned
    {
      tenantEngine := Unassigned;
    }

    /**
     * The `before_request` hook `bind_tenant_database`: platform and static
     * paths leave `g` untouched; otherwise `g.tenant_engine` is the resolved
     * tenant's engine, built afresh for this request, or None.
     */
    method BindTenantDatabase(path: string, host: string, baseDomain: Option<string>, defaultSlug: Option<string>, registry: seq<Tenant>)
      modifies this
      ensures SkipsTenantBinding(path) ==> tenantEngine == old(tenantEngine)
      ensures !SkipsTenantBinding(path) ==>
                var e := TenantEngine(registry, host, baseDomain, defaultSlug);
                tenantEngine == (if e.None? then NoEngine else Engine(e.value))
    {
      if SkipsTenantBinding(path) {
        return;
      }
      var slug := SubdomainSlug(host, baseDomain);
      if slug.None? || slug.value == [] {
        slug := defaultSlug;
      }
      if slug.None? || slug.value == [] {
        tenantEngine := NoEngine;
        return;
      }
      var tenant := ActiveTenant(registry, slug.value);
      if tenant.None? {
        tenantEngine := NoEngine;
        return;
      }
      tenantEngine := Engine(tenant.value.dbUri);
    }
  }

  // ---------------------------------------------------------- session binds

  /** A mapped table and the bind key in its `info` (only the platform models carry one). */
  datatype Table = Table(name: string, bindKey: Option<string>)

  const PlatformKey: string := "platform"
  const TenantsTable: Table := Table("tenants", Some(PlatformKey))
  const PlatformAdminsTable: Table := Table("platform_admins", Some(PlatformKey))

  /** Where a query goes: the engine of a bind key, a tenant database, or the default database. */
  datatype Bind = KeyedBind(key: string) | TenantBind(uri: string) | DefaultBind

  /** The framework's own `get_bind`: a table with a bind key uses that key's engine. */
  function FrameworkBind(mapper: Option<Table>): Bind
  {
    if mapper.Some? && mapper.value.bindKey.Some? && mapper.value.bindKey.value != [] then KeyedBind(mapper.value.bindKey.value)
    else DefaultBind
  }

  /** `TenantRoutingSession.get_bind`: keyed tables first, then the request's tenant engine, then the default. */
  function GetBind(mapper: Option<Table>, engine: EngineSlot): (b: Bind)
    ensures b.TenantBind? <==> engine.Engine? && !(mapper.Some? && mapper.value.bindKey.Some? && mapper.value.bindKey.value != [])
    ensures b.TenantBind? ==> b.uri == engine.uri
  {
    if mapper.Some? && mapper.value.bindKey.Some? && mapper.value.bindKey.value != [] then FrameworkBind(mapper)
    else if engine.Engine? then TenantBind(engine.uri)
    else FrameworkBind(mapper)
  }

  /** The platform tables always reach the platform database, whatever tenant a request is bound to. */
  lemma PlatformTablesStayOnPlatform(engine: EngineSlot)
    ensures GetBind(Some(TenantsTable), engine) == KeyedBind("platform")
    ensures GetBind(Some(PlatformAdminsTable), engine) == KeyedBind("platform")
  {
  }

  /** An unkeyed table of a request without a tenant engine reaches the default database. */
  lemma UnboundRequestsUseDefault(mapper: Option<Table>, engine: EngineSlot)
    requires mapper.None? || mapper.value.bindKey.None? || mapper.value.bindKey == Some([])
    requires !engine.Engine?
    ensures GetBind(mapper, engine) == DefaultBind
  {
  }
}
