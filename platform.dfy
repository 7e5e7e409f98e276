/**
 * The platform console (app/platform/routes.py): the platform operator
 * registers tenants, edits them and extends their subscription. A new
 * tenant's registry row is written before its logo is stored and its
 * database provisioned, and is deleted again when either fails. Every write
 * keeps slugs unique and no end date before its start date.
 */
module Platform {
  import opened Wrappers
  import opened Text
  import opened Numbers
  import opened Calendar
  import opened Tenancy
  import Companies

  // ---------------------------------------------------------------- form values

  /** `_parse_date`: blank or unparsable text is no date. */
  function ParseDate(raw: string): (d: Option<int>)
    ensures IsBlank(raw) ==> d.None?
  {
    var t := Strip(raw);
    if t == [] then None else ParseIsoDate(t)
  }

  /** A date written as YYYY-MM-DD, with or without padding, reads back as that day. */
  lemma ParseDateRoundTrip(pre: string, y: nat, m: nat, d: nat, post: string)
    requires ValidDate(y, m, d)
    requires forall i :: 0 <= i < |pre| ==> IsSpace(pre[i])
    requires forall i :: 0 <= i < |post| ==> IsSpace(post[i])
    ensures ParseDate(pre + IsoDate(y, m, d) + post) == Some(Ordinal(y, m, d))
  {
    var s := IsoDate(y, m, d);
    var a, c := PadTo(4, y), PadTo(2, d);
    assert s[0] == a[0] && IsDigit(a[0]);
    assert s[|s| - 1] == c[|c| - 1] && IsDigit(c[|c| - 1]);
    StripPadding(pre, s, post);
    IsoDateRoundTrip(y, m, d);
  }

  /** Neither end of the window may lie before the other when both are present. */
  predicate WindowOrdered(start: Option<int>, end: Option<int>)
  {
    !(start.Some? && end.Some? && end.value < start.value)
  }

  /**
   * The logo file name a tenant's upload is stored under: the slug and the
   * lower-cased extension. The source passes this name through
   * `secure_filename`, which is not modelled.
   */
  function TenantLogoName(slug: string, fileName: string): string
  {
    slug + "." + Extension(fileName)
  }

  // ---------------------------------------------------------------- registry rules

  predicate TenantIdsAscending(ts: seq<Tenant>)
  {
    forall i, j :: 0 <= i < j < |ts| ==> ts[i].id < ts[j].id
  }

  predicate WindowsOrdered(ts: seq<Tenant>)
  {
    forall i :: 0 <= i < |ts| ==> WindowOrdered(ts[i].startDate, ts[i].endDate)
  }

  predicate RegistryValid(ts: seq<Tenant>)
  {
    TenantIdsAscending(ts) && UniqueSlugs(ts) && WindowsOrdered(ts)
  }

  function NextTenantId(ts: seq<Tenant>): (id: int)
    ensures TenantIdsAscending(ts) ==> forall i :: 0 <= i < |ts| ==> ts[i].id < id
  {
    if ts == [] then 1 else ts[|ts| - 1].id + 1
  }

  function FindTenant(ts: seq<Tenant>, id: int): (k: Option<nat>)
    ensures k.Some? ==> k.value < |ts| && ts[k.value].id == id
    ensures k.None? ==> forall i :: 0 <= i < |ts| ==> ts[i].id != id
  {
    if ts == [] then None
    else if ts[|ts| - 1].id == id then Some(|ts| - 1)
    else FindTenant(ts[..|ts| - 1], id)
  }

  predicate SlugInUse(ts: seq<Tenant>, slug: string)
  {
    exists i :: 0 <= i < |ts| && ts[i].slug == slug
  }

  predicate SlugHeldByOther(ts: seq<Tenant>, id: int, slug: string)
  {
    exists i :: 0 <= i < |ts| && ts[i].id != id && ts[i].slug == slug
  }

  // ---------------------------------------------------------------- forms and outcomes

  /** The tenant form; a missing field is "". */
  datatype TenantForm = TenantForm(
    name: string, slug: string, dbUri: string, adminEmail: string, adminName: string,
    adminPassword: string, startDate: string, endDate: string, isActive: string)

  /**
   * The outcomes. `ProvisionFailed` covers a refused logo and a failed
   * provisioning after the row was written (the row is deleted again);
   * `ConstraintFailed` is the unique slug column refusing the commit.
   */
  datatype TenantOutcome = TenantNotFound | FieldsRequired | AdminRequired | EndBeforeStart | SlugTaken
                         | ProvisionFailed | LogoRejected | ConstraintFailed | InvalidEndDate
                         | TenantCreated(tenant: Tenant) | TenantUpdated | TenantExtended

  /** The registry row tenants_new writes. */
  function NewTenant(ts: seq<Tenant>, f: TenantForm, logoName: Option<string>): (t: Tenant)
    ensures t.id == NextTenantId(ts) && t.isActive
  {
    Tenant(NextTenantId(ts), Strip(f.name), Lower(Strip(f.slug)), Strip(f.dbUri), logoName,
           ParseDate(f.startDate), ParseDate(f.endDate), true)
  }

  /** tenants_new: the checks before the row is written, then the logo and the provisioning. */
  function NewTenantDecision(ts: seq<Tenant>, f: TenantForm, logo: Option<string>, provisioned: bool): TenantOutcome
  {
    var slug := Lower(Strip(f.slug));
    if IsBlank(f.name) || slug == [] || IsBlank(f.dbUri) then FieldsRequired
    else if Lower(Strip(f.adminEmail)) == [] || IsBlank(f.adminPassword) then AdminRequired
    else if !WindowOrdered(ParseDate(f.startDate), ParseDate(f.endDate)) then EndBeforeStart
    else if SlugInUse(ts, slug) then SlugTaken
    else if logo.Some? && logo.value != "" && !Companies.AllowedFile(logo.value) then ProvisionFailed
    else if !provisioned then ProvisionFailed
    else TenantCreated(NewTenant(ts, f, if logo.Some? && logo.value != "" then Some(TenantLogoName(slug, logo.value)) else None))
  }

  /** A created tenant has every required field, a fresh slug and an ordered window. */
  lemma CreatedTenantIsWellFormed(ts: seq<Tenant>, f: TenantForm, logo: Option<string>, provisioned: bool)
    requires NewTenantDecision(ts, f, logo, provisioned).TenantCreated?
    ensures var t := NewTenantDecision(ts, f, logo, provisioned).tenant;
            t.name != [] && t.slug != [] && t.dbUri != [] && !SlugInUse(ts, t.slug) &&
            WindowOrdered(t.startDate, t.endDate) && provisioned &&
            !IsBlank(f.adminEmail) && !IsBlank(f.adminPassword)
  {
    var t := NewTenantDecision(ts, f, logo, provisioned).tenant;
    assert |Lower(Strip(f.adminEmail))| == |Strip(f.adminEmail)|;
  }

  /** The edited row: every field overwritten from the form, the logo only when one is uploaded. */
  function EditedTenant(t: Tenant, f: TenantForm, logo: Option<string>): (e: Tenant)
    ensures e.id == t.id
  {
    var slug := Lower(Strip(f.slug));
    t.(name := Strip(f.name), slug := slug, dbUri := Strip(f.dbUri), isActive := f.isActive == "1",
       startDate := ParseDate(f.startDate), endDate := ParseDate(f.endDate),
       logo := if logo.Some? && logo.value != "" then Some(TenantLogoName(slug, logo.value)) else t.logo)
  }

  /** tenants_edit: only the window and the logo type are checked; the unique slug column has the last word. */
  function EditDecision(ts: seq<Tenant>, id: int, f: TenantForm, logo: Option<string>): TenantOutcome
  {
    match FindTenant(ts, id)
    case None => TenantNotFound
    case Some(k) =>
      if !WindowOrdered(ParseDate(f.startDate), ParseDate(f.endDate)) then EndBeforeStart
      else if logo.Some? && logo.value != "" && !Companies.AllowedFile(logo.value) then LogoRejected
      else if SlugHeldByOther(ts, id, Lower(Strip(f.slug))) then ConstraintFailed
      else TenantUpdated
  }

  /** Edit, unlike create, accepts a blank name: nothing but the window, the logo and the slug column is checked. */
  lemma EditAcceptsBlankName()
    ensures var ts := [Tenant(1, "Acme", "acme", "db", None, None, None, true)];
            EditDecision(ts, 1, TenantForm("", "acme", "", "", "", "", "", "", "1"), None) == TenantUpdated &&
            NewTenantDecision([], TenantForm("", "acme", "", "", "", "", "", "", "1"), None, true) == FieldsRequired
  {
    var ts := [Tenant(1, "Acme", "acme", "db", None, None, None, true)];
    assert FindTenant(ts, 1) == Some(0);
    StripUnpadded("acme");
    assert Lower("acme") == "acme";
    assert !SlugHeldByOther(ts, 1, "acme");
  }

  /** tenants_extend: a valid date not before the start. */
  function ExtendDecision(ts: seq<Tenant>, id: int, raw: string): TenantOutcome
  {
    match FindTenant(ts, id)
    case None => TenantNotFound
    case Some(k) =>
      if ParseDate(raw).None? then InvalidEndDate
      else if !WindowOrdered(ts[k].startDate, ParseDate(raw)) then EndBeforeStart
      else TenantExtended
  }

  /** An extension is refused exactly for a missing or invalid date or one before the start date. */
  lemma ExtendChecksWindow(ts: seq<Tenant>, id: int, raw: string)
    requires FindTenant(ts, id).Some?
    ensures var t := ts[FindTenant(ts, id).value];
            ExtendDecision(ts, id, raw) == TenantExtended <==>
              ParseDate(raw).Some? && (t.startDate.None? || t.startDate.value <= ParseDate(raw).value)
  {
  }

  // ---------------------------------------------------------------- invariant steps

  lemma AppendTenantKeepsValid(ts: seq<Tenant>, t: Tenant)
    requires RegistryValid(ts) && t.id == NextTenantId(ts)
    requires !SlugInUse(ts, t.slug) && WindowOrdered(t.startDate, t.endDate)
    ensures RegistryValid(ts + [t])
  {
  }

  lemma ReplaceTenantKeepsValid(ts: seq<Tenant>, k: nat, t: Tenant)
    requires RegistryValid(ts) && k < |ts| && t.id == ts[k].id
    requires !SlugHeldByOther(ts, t.id, t.slug) && WindowOrdered(t.startDate, t.endDate)
    ensures RegistryValid(ts[k := t])
  {
    var ts2 := ts[k := t];
    forall i, j | 0 <= i < j < |ts2|
      ensures ts2[i].slug != ts2[j].slug
    {
      if i == k {
        assert ts2[j] == ts[j] && ts[j].id != t.id;
      } else if j == k {
        assert ts2[i] == ts[i] && ts[i].id != t.id;
      }
    }
  }

  // ---------------------------------------------------------------- the registry

  class TenantRegistry {
    var tenants: seq<Tenant>

    predicate Valid()
      reads this
    {
      RegistryValid(tenants)
    }

    constructor ()
      ensures Valid() && tenants == []
    {
      tenants := [];
    }

    /**
     * tenants_new. `logo` is the uploaded file's name (None when no file
     * field was sent); `provisioned` is whether creating the tenant database
     * succeeded. The row is written first and deleted again when the logo is
     * refused or provisioning fails.
     */
    method New(f: TenantForm, logo: Option<string>, provisioned: bool) returns (outcome: TenantOutcome)
      requires Valid()
      modifies this`tenants
      ensures Valid()
      ensures outcome == NewTenantDecision(old(tenants), f, logo, provisioned)
      ensures outcome.TenantCreated? ==> tenants == old(tenants) + [outcome.tenant]
      ensures !outcome.TenantCreated? ==> tenants == old(tenants)
    {
      var name := Strip(f.name);
      var slug := Lower(Strip(f.slug));
      var dbUri := Strip(f.dbUri);
      var adminEmail := Lower(Strip(f.adminEmail));
      var adminPassword := Strip(f.adminPassword);
      var startDate, endDate := ParseDate(f.startDate), ParseDate(f.endDate);
      if name == [] || slug == [] || dbUri == [] {
        return FieldsRequired;
      }
      if adminEmail == [] || adminPassword == [] {
        return AdminRequired;
      }
      if !WindowOrdered(startDate, endDate) {
        return EndBeforeStart;
      }
      if SlugInUse(tenants, slug) {
        return SlugTaken;
      }
      var t := NewTenant(tenants, f, None);
      ghost var before := tenants;
      tenants := tenants + [t];
      if logo.Some? && logo.value != "" {
        if !Companies.AllowedFile(logo.value) {
          tenants := tenants[..|tenants| - 1];
          assert tenants == before;
          return ProvisionFailed;
        }
        t := t.(logo := Some(TenantLogoName(slug, logo.value)));
        tenants := tenants[|tenants| - 1 := t];
        assert tenants == before + [t];
      }
      if !provisioned {
        tenants := tenants[..|tenants| - 1];
        assert tenants == before;
        return ProvisionFailed;
      }
      AppendTenantKeepsValid(before, t);
      return TenantCreated(t);
    }

    /** tenants_edit: a refused edit saves nothing. */
    method Edit(id: int, f: TenantForm, logo: Option<string>) returns (outcome: TenantOutcome)
      requires Valid()
      modifies this
      ensures Valid()
      ensures outcome == EditDecision(old(tenants), id, f, logo)
      ensures outcome == TenantUpdated ==>
                var k := FindTenant(old(tenants), id).value;
                tenants == old(tenants)[k := EditedTenant(old(tenants)[k], f, logo)]
      ensures outcome != TenantUpdated ==> tenants == old(tenants)
    {
      var found := FindTenant(tenants, id);
      if found.None? {
        return TenantNotFound;
      }
      var k := found.value;
      var t := tenants[k];
      var slug := Lower(Strip(f.slug));
      t := t.(name := Strip(f.name), slug := slug, dbUri := Strip(f.dbUri), isActive := f.isActive == "1");
      t := t.(startDate := ParseDate(f.startDate), endDate := ParseDate(f.endDate));
      if !WindowOrdered(t.startDate, t.endDate) {
        return EndBeforeStart;
      }
      if logo.Some? && logo.value != "" {
        if !Companies.AllowedFile(logo.value) {
          return LogoRejected;
        }
        t := t.(logo := Some(TenantLogoName(slug, logo.value)));
      }
      if SlugHeldByOther(tenants, id, slug) {
        return ConstraintFailed;
      }
      ReplaceTenantKeepsValid(tenants, k, t);
      tenants := tenants[k := t];
      return TenantUpdated;
    }

    /** tenants_extend: only the end date changes. */
    method Extend(id: int, raw: string) returns (outcome: TenantOutcome)
      requires Valid()
      modifies this
      ensures Valid()
      ensures outcome == ExtendDecision(old(tenants), id, raw)
      ensures outcome == TenantExtended ==>
                var k := FindTenant(old(tenants), id).value;
                tenants == old(tenants)[k := old(tenants)[k].(endDate := ParseDate(raw))]
      ensures outcome != TenantExtended ==> tenants == old(tenants)
    {
      var found := FindTenant(tenants, id);
      if found.None? {
        return TenantNotFound;
      }
      var k := found.value;
      var newEnd := ParseDate(raw);
      if newEnd.None? {
        return InvalidEndDate;
      }
      if tenants[k].startDate.Some? && newEnd.value < tenants[k].startDate.value {
        return EndBeforeStart;
      }
      var t := tenants[k].(endDate := newEnd);
      ReplaceTenantKeepsValid(tenants, k, t);
      tenants := tenants[k := t];
      return TenantExtended;
    }
  }
}
