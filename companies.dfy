/**
 * The company master (app/company_master/routes.py): the tenant's own
 * companies, with a logo each, and their branches. Names are required, a new
 * company's name must differ ignoring case from every existing one, and a
 * branch name must differ ignoring case from the other branches of its
 * company. The database keeps names unique on top of that, compared
 * exactly as under a case-sensitive collation, and refuses a branch of a
 * company that does not exist.
 */
module Companies {
  import opened Wrappers
  import opened Text
  import opened Numbers

  /** A `companies` row. */
  datatype Company = Company(id: nat, name: string, pan: Option<string>, logoPath: Option<string>, isActive: bool)

  /** A `company_branches` row. */
  datatype CompanyBranch = CompanyBranch(
    id: nat, companyId: int, name: string, address: Option<string>, state: Option<string>,
    gstNo: Option<string>, isActive: bool)

  // ---------------------------------------------------------------- logos

  const ALLOWED_LOGO_EXTS: set<string> := {"png", "jpg", "jpeg", "webp"}
  const MAX_LOGO_BYTES: nat := 2 * 1024 * 1024

  /** `_allowed_file`: a dot, and a lower-cased last extension from the list. */
  predicate AllowedFile(fileName: string)
  {
    fileName != "" && '.' in fileName && Extension(fileName) in ALLOWED_LOGO_EXTS
  }

  /** A name is allowed exactly when it has a dot and its extension lower-cases into the list. */
  lemma AllowedFileByExtension(stem: string, ext: string, plain: string)
    requires '.' !in ext && '.' !in plain
    ensures AllowedFile(stem + "." + ext) <==> Lower(ext) in ALLOWED_LOGO_EXTS
    ensures !AllowedFile(plain)
  {
    ExtensionOfDotted(stem, ext);
    assert (stem + "." + ext)[|stem|] == '.';
  }

  /** An uploaded file: the name the browser sent, its `secure_filename` form and its size. */
  datatype Upload = Upload(rawName: string, safeName: string, size: nat)

  datatype LogoError = LogoWrongType | LogoTooLarge

  datatype LogoResult = LogoStored(path: string) | LogoRefused(error: LogoError)

  /** `_save_logo`: the type and size checks, then the path under uploads/company_logos. */
  function SaveLogo(u: Upload, stamp: string): (r: LogoResult)
    ensures r.LogoStored? <==> AllowedFile(u.safeName) && u.size <= MAX_LOGO_BYTES
    ensures r.LogoStored? ==> EndsWith(r.path, u.safeName) && StartsWith(r.path, "uploads/company_logos/")
  {
    if !AllowedFile(u.safeName) then LogoRefused(LogoWrongType)
    else if u.size > MAX_LOGO_BYTES then LogoRefused(LogoTooLarge)
    else
      var path := "uploads/company_logos/" + stamp + "_" + u.safeName;
      assert path[|path| - |u.safeName|..] == u.safeName;
      assert path[..|"uploads/company_logos/"|] == "uploads/company_logos/";
      LogoStored(path)
  }

  /** A file is uploaded when the field is present with a non-empty name. */
  predicate Uploaded(logo: Option<Upload>)
  {
    logo.Some? && logo.value.rawName != ""
  }

  // ---------------------------------------------------------------- table rules

  predicate CompanyIdsAscending(cs: seq<Company>)
  {
    forall i, j :: 0 <= i < j < |cs| ==> cs[i].id < cs[j].id
  }

  predicate BranchIdsAscending(bs: seq<CompanyBranch>)
  {
    forall i, j :: 0 <= i < j < |bs| ==> bs[i].id < bs[j].id
  }

  /** `companies.name` is unique. */
  predicate CompanyNamesDistinct(cs: seq<Company>)
  {
    forall i, j :: 0 <= i < j < |cs| ==> cs[i].name != cs[j].name
  }

  /** The constraint uq_company_branch_name: (company_id, branch_name) is unique. */
  predicate BranchNamesDistinct(bs: seq<CompanyBranch>)
  {
    forall i, j :: 0 <= i < j < |bs| ==> bs[i].companyId != bs[j].companyId || bs[i].name != bs[j].name
  }

  /** The foreign key `company_branches.company_id -> companies.id`. */
  predicate BranchesHaveCompany(cs: seq<Company>, bs: seq<CompanyBranch>)
  {
    forall i :: 0 <= i < |bs| ==> HasCompany(cs, bs[i].companyId)
  }

  predicate HasCompany(cs: seq<Company>, id: int)
  {
    exists j :: 0 <= j < |cs| && cs[j].id == id
  }

  predicate MasterValid(cs: seq<Company>, bs: seq<CompanyBranch>)
  {
    CompanyIdsAscending(cs) && BranchIdsAscending(bs) && CompanyNamesDistinct(cs) && BranchNamesDistinct(bs) &&
    BranchesHaveCompany(cs, bs)
  }

  function NextCompanyId(cs: seq<Company>): (id: nat)
    ensures CompanyIdsAscending(cs) ==> forall i :: 0 <= i < |cs| ==> cs[i].id < id
  {
    if cs == [] then 1 else cs[|cs| - 1].id + 1
  }

  function NextBranchId(bs: seq<CompanyBranch>): (id: nat)
    ensures BranchIdsAscending(bs) ==> forall i :: 0 <= i < |bs| ==> bs[i].id < id
  {
    if bs == [] then 1 else bs[|bs| - 1].id + 1
  }

  function FindCompany(cs: seq<Company>, id: int): (k: Option<nat>)
    ensures k.Some? ==> k.value < |cs| && cs[k.value].id == id
    ensures k.None? ==> forall i :: 0 <= i < |cs| ==> cs[i].id != id
  {
    if cs == [] then None
    else if cs[|cs| - 1].id == id then Some(|cs| - 1)
    else FindCompany(cs[..|cs| - 1], id)
  }

  function FindBranch(bs: seq<CompanyBranch>, id: int): (k: Option<nat>)
    ensures k.Some? ==> k.value < |bs| && bs[k.value].id == id
    ensures k.None? ==> forall i :: 0 <= i < |bs| ==> bs[i].id != id
  {
    if bs == [] then None
    else if bs[|bs| - 1].id == id then Some(|bs| - 1)
    else FindBranch(bs[..|bs| - 1], id)
  }

  /** Some company's name equals `name` ignoring case (the create check). */
  predicate NameTakenIgnoringCase(cs: seq<Company>, name: string)
  {
    exists i :: 0 <= i < |cs| && SameIgnoringCase(cs[i].name, name)
  }

  /** Some other company already carries exactly `name` (what the unique column refuses). */
  predicate NameHeldByOther(cs: seq<Company>, id: int, name: string)
  {
    exists i :: 0 <= i < |cs| && cs[i].id != id && cs[i].name == name
  }

  /** A branch of company `companyId`, other than `except`, named `name` ignoring case. */
  predicate BranchNameTaken(bs: seq<CompanyBranch>, companyId: int, name: string, except: Option<int>)
  {
    exists i :: 0 <= i < |bs| && bs[i].companyId == companyId && SameIgnoringCase(bs[i].name, name) &&
                (except.None? || bs[i].id != except.value)
  }

  /** Another branch of company `companyId` named exactly `name`. */
  predicate BranchHeldByOther(bs: seq<CompanyBranch>, id: int, companyId: int, name: string)
  {
    exists i :: 0 <= i < |bs| && bs[i].id != id && bs[i].companyId == companyId && bs[i].name == name
  }

  // ---------------------------------------------------------------- forms and outcomes

  /** The company form; `companyId` is the raw `company_id`, "" when missing. */
  datatype CompanyForm = CompanyForm(companyId: string, name: string, pan: string, isActive: string)

  /** The branch form; ids are the raw form values. */
  datatype BranchForm = BranchForm(companyId: string, branchId: string, name: string, address: string,
                                   state: string, gstNo: string, isActive: string)

  /**
   * The outcomes of a POST. Every refusal saves nothing: the handler returns
   * early or rolls back. `BadNumber` is `int()` raising on an id, `NotFound`
   * the `get_or_404` abort (reported as "Action failed."), `ConstraintFailed`
   * a unique column or a foreign key refusing the commit.
   */
  datatype MasterOutcome = NameRequired | CompanyNameTaken | BranchNameExists | BadNumber | NotFound
                         | LogoRejected(error: LogoError) | ConstraintFailed
                         | CompanySaved(id: nat) | BranchSaved(id: nat) | Toggled

  /** The saved state of a master POST. */
  predicate Saved(o: MasterOutcome)
  {
    o.CompanySaved? || o.BranchSaved? || o.Toggled?
  }

  // ---------------------------------------------------------------- company create / update

  /** The logo a company ends up with: unchanged without an upload, the stored path with one. */
  function LogoAfter(current: Option<string>, logo: Option<Upload>, stamp: string): Option<string>
    requires Uploaded(logo) ==> SaveLogo(logo.value, stamp).LogoStored?
  {
    if Uploaded(logo) then Some(SaveLogo(logo.value, stamp).path) else current
  }

  /** company_create: a name, free ignoring case, then the logo. */
  function CreateCompanyDecision(cs: seq<Company>, f: CompanyForm, logo: Option<Upload>, stamp: string): MasterOutcome
  {
    var name := Strip(f.name);
    if name == [] then NameRequired
    else if NameTakenIgnoringCase(cs, name) then CompanyNameTaken
    else if Uploaded(logo) && SaveLogo(logo.value, stamp).LogoRefused? then LogoRejected(SaveLogo(logo.value, stamp).error)
    else CompanySaved(NextCompanyId(cs))
  }

  /**
   * company_update: a name, then the id and the row, then the logo; no
   * check against other names beyond the unique column at commit.
   */
  function UpdateCompanyDecision(cs: seq<Company>, f: CompanyForm, logo: Option<Upload>, stamp: string): MasterOutcome
  {
    var name := Strip(f.name);
    if name == [] then NameRequired
    else match ParseInt(f.companyId)
      case None => BadNumber
      case Some(id) =>
        if FindCompany(cs, id).None? then NotFound
        else if Uploaded(logo) && SaveLogo(logo.value, stamp).LogoRefused? then LogoRejected(SaveLogo(logo.value, stamp).error)
        else if NameHeldByOther(cs, id, name) then ConstraintFailed
        else CompanySaved(id)
  }

  /** A company is created only under a name no company has, ignoring case. */
  lemma CreateRefusesCaseVariants(cs: seq<Company>, f: CompanyForm, logo: Option<Upload>, stamp: string, i: nat)
    requires i < |cs| && SameIgnoringCase(cs[i].name, Strip(f.name))
    ensures !CreateCompanyDecision(cs, f, logo, stamp).CompanySaved?
  {
  }

  /**
   * Update does not look at other names ignoring case: under a case-sensitive
   * collation, renaming a company to another's name in capitals goes through.
   * Under the utf8mb4_unicode_ci collation of the databases the program
   * provisions, the unique index would refuse the same rename at commit.
   */
  lemma UpdateAcceptsCaseVariant()
    ensures var cs := [Company(1, "Acme", None, None, true), Company(2, "Beta", None, None, true)];
            UpdateCompanyDecision(cs, CompanyForm("2", "ACME", "", "1"), None, "") == CompanySaved(2) &&
            SameIgnoringCase(cs[0].name, "ACME")
  {
    var cs := [Company(1, "Acme", None, None, true), Company(2, "Beta", None, None, true)];
    StripUnpadded("ACME");
    StripUnpadded("2");
    assert IsDigits("2");
    assert ParseInt("2") == Some(2);
    assert FindCompany(cs, 2) == Some(1);
    assert !NameHeldByOther(cs, 2, "ACME") by {
      assert cs[0].name != "ACME" && cs[1].id == 2;
    }
    assert Lower("Acme") == Lower("ACME");
  }

  /** A blank company name is refused before anything else, on create and on update. */
  lemma BlankCompanyNameRefused(cs: seq<Company>, f: CompanyForm, logo: Option<Upload>, stamp: string)
    requires IsBlank(f.name)
    ensures CreateCompanyDecision(cs, f, logo, stamp) == NameRequired
    ensures UpdateCompanyDecision(cs, f, logo, stamp) == NameRequired
  {
  }

  // ---------------------------------------------------------------- branch add / update

  /** The branch written by add (fresh id) or update (the row's own id and company). */
  function BranchFromForm(id: nat, companyId: int, f: BranchForm): (b: CompanyBranch)
    ensures b.id == id && b.companyId == companyId && b.name == Strip(f.name) && b.isActive == (f.isActive == "1")
  {
    CompanyBranch(id, companyId, Strip(f.name), OrNone(f.address), OrNone(f.state), OrNone(f.gstNo), f.isActive == "1")
  }

  /**
   * branch_add / branch_update: the company id, a name, the branch id on
   * update, uniqueness within the submitted company ignoring case; add then
   * needs the company row for the foreign key, update the branch row and the
   * unique constraint of the row's own company.
   */
  function BranchDecision(cs: seq<Company>, bs: seq<CompanyBranch>, f: BranchForm, adding: bool): MasterOutcome
  {
    var name := Strip(f.name);
    match ParseInt(f.companyId)
    case None => BadNumber
    case Some(cid) =>
      if name == [] then NameRequired
      else if !adding && ParseInt(f.branchId).None? then BadNumber
      else if BranchNameTaken(bs, cid, name, if adding then None else ParseInt(f.branchId)) then BranchNameExists
      else if adding then
        if FindCompany(cs, cid).None? then ConstraintFailed else BranchSaved(NextBranchId(bs))
      else
        var bid := ParseInt(f.branchId).value;
        match FindBranch(bs, bid)
        case None => NotFound
        case Some(k) =>
          if BranchHeldByOther(bs, bid, bs[k].companyId, name) then ConstraintFailed
          else BranchSaved(bid)
  }

  /** A saved branch name differs, ignoring case, from every other branch of the submitted company. */
  lemma SavedBranchNameIsFree(cs: seq<Company>, bs: seq<CompanyBranch>, f: BranchForm, adding: bool, i: nat)
    requires BranchDecision(cs, bs, f, adding).BranchSaved?
    requires i < |bs| && bs[i].companyId == ParseInt(f.companyId).value && SameIgnoringCase(bs[i].name, Strip(f.name))
    ensures !adding && bs[i].id == ParseInt(f.branchId).value
  {
  }

  /** A blank branch name saves nothing. */
  lemma BlankBranchNameRefused(cs: seq<Company>, bs: seq<CompanyBranch>, f: BranchForm, adding: bool)
    requires IsBlank(f.name)
    ensures !Saved(BranchDecision(cs, bs, f, adding))
  {
  }

  // ---------------------------------------------------------------- invariant steps

  lemma AppendCompanyKeepsValid(cs: seq<Company>, bs: seq<CompanyBranch>, c: Company)
    requires MasterValid(cs, bs) && c.id == NextCompanyId(cs)
    requires !NameTakenIgnoringCase(cs, c.name)
    ensures MasterValid(cs + [c], bs)
  {
    var cs2 := cs + [c];
    forall i, j | 0 <= i < j < |cs2|
      ensures cs2[i].name != cs2[j].name
    {
      if j == |cs| {
        assert !SameIgnoringCase(cs[i].name, c.name);
      }
    }
    forall i | 0 <= i < |bs|
      ensures HasCompany(cs2, bs[i].companyId)
    {
      var j :| 0 <= j < |cs| && cs[j].id == bs[i].companyId;
      assert cs2[j] == cs[j];
    }
  }

  lemma ReplaceCompanyKeepsValid(cs: seq<Company>, bs: seq<CompanyBranch>, k: nat, c: Company)
    requires MasterValid(cs, bs) && k < |cs| && c.id == cs[k].id
    requires !NameHeldByOther(cs, c.id, c.name)
    ensures MasterValid(cs[k := c], bs)
  {
    var cs2 := cs[k := c];
    forall i, j | 0 <= i < j < |cs2|
      ensures cs2[i].name != cs2[j].name
    {
      if i == k {
        assert cs2[j] == cs[j] && cs[j].id != c.id;
      } else if j == k {
        assert cs2[i] == cs[i] && cs[i].id != c.id;
      }
    }
    forall i | 0 <= i < |bs|
      ensures HasCompany(cs2, bs[i].companyId)
    {
      var j :| 0 <= j < |cs| && cs[j].id == bs[i].companyId;
      assert cs2[j].id == cs[j].id;
    }
  }

  lemma AppendBranchKeepsValid(cs: seq<Company>, bs: seq<CompanyBranch>, b: CompanyBranch)
    requires MasterValid(cs, bs) && b.id == NextBranchId(bs)
    requires !BranchNameTaken(bs, b.companyId, b.name, None)
    requires FindCompany(cs, b.companyId).Some?
    ensures MasterValid(cs, bs + [b])
  {
    var bs2 := bs + [b];
    forall i, j | 0 <= i < j < |bs2|
      ensures bs2[i].companyId != bs2[j].companyId || bs2[i].name != bs2[j].name
    {
      if j == |bs| && bs[i].companyId == b.companyId {
        assert !SameIgnoringCase(bs[i].name, b.name);
      }
    }
  }

  lemma ReplaceBranchKeepsValid(cs: seq<Company>, bs: seq<CompanyBranch>, k: nat, b: CompanyBranch)
    requires MasterValid(cs, bs) && k < |bs| && b.id == bs[k].id && b.companyId == bs[k].companyId
    requires !BranchHeldByOther(bs, b.id, b.companyId, b.name)
    ensures MasterValid(cs, bs[k := b])
  {
    var bs2 := bs[k := b];
    forall i, j | 0 <= i < j < |bs2|
      ensures bs2[i].companyId != bs2[j].companyId || bs2[i].name != bs2[j].name
    {
      if i == k {
        assert bs2[j] == bs[j] && bs[j].id != b.id;
      } else if j == k {
        assert bs2[i] == bs[i] && bs[i].id != b.id;
      }
    }
  }

  // ---------------------------------------------------------------- the master

  class CompanyMaster {
    var companies: seq<Company>
    var branches: seq<CompanyBranch>

    predicate Valid()
      reads this
    {
      MasterValid(companies, branches)
    }

    constructor ()
      ensures Valid() && companies == [] && branches == []
    {
      companies := [];
      branches := [];
    }

    /** company_create. */
    method CreateCompany(f: CompanyForm, logo: Option<Upload>, stamp: string) returns (outcome: MasterOutcome)
      requires Valid()
      modifies this
      ensures Valid() && branches == old(branches)
      ensures outcome == CreateCompanyDecision(old(companies), f, logo, stamp)
      ensures outcome.CompanySaved? ==>
                companies == old(companies) + [Company(outcome.id, Strip(f.name), OrNone(f.pan),
                                                       LogoAfter(None, logo, stamp), f.isActive == "1")]
      ensures !outcome.CompanySaved? ==> companies == old(companies)
    {
      var name := Strip(f.name);
      if name == [] {
        return NameRequired;
      }
      if NameTakenIgnoringCase(companies, name) {
        return CompanyNameTaken;
      }
      var path: Option<string> := None;
      if Uploaded(logo) {
        var saved := SaveLogo(logo.value, stamp);
        if saved.LogoRefused? {
          return LogoRejected(saved.error);
        }
        path := Some(saved.path);
      }
      var c := Company(NextCompanyId(companies), name, OrNone(f.pan), path, f.isActive == "1");
      AppendCompanyKeepsValid(companies, branches, c);
      companies := companies + [c];
      return CompanySaved(c.id);
    }

    /** company_update: name, PAN and status overwritten, the logo replaced when one is uploaded. */
    method UpdateCompany(f: CompanyForm, logo: Option<Upload>, stamp: string) returns (outcome: MasterOutcome)
      requires Valid()
      modifies this
      ensures Valid() && branches == old(branches)
      ensures outcome == UpdateCompanyDecision(old(companies), f, logo, stamp)
      ensures outcome.CompanySaved? ==>
                var k := FindCompany(old(companies), outcome.id).value;
                var c := old(companies)[k];
                companies == old(companies)[k := c.(name := Strip(f.name), pan := OrNone(f.pan),
                                                    isActive := f.isActive == "1",
                                                    logoPath := LogoAfter(c.logoPath, logo, stamp))]
      ensures !outcome.CompanySaved? ==> companies == old(companies)
    {
      var name := Strip(f.name);
      if name == [] {
        return NameRequired;
      }
      var cid := ParseInt(f.companyId);
      if cid.None? {
        return BadNumber;
      }
      var found := FindCompany(companies, cid.value);
      if found.None? {
        return NotFound;
      }
      var k := found.value;
      var c := companies[k].(name := name, pan := OrNone(f.pan), isActive := f.isActive == "1");
      if Uploaded(logo) {
        var saved := SaveLogo(logo.value, stamp);
        if saved.LogoRefused? {
          return LogoRejected(saved.error);
        }
        c := c.(logoPath := Some(saved.path));
      }
      if NameHeldByOther(companies, c.id, name) {
        return ConstraintFailed;
      }
      ReplaceCompanyKeepsValid(companies, branches, k, c);
      companies := companies[k := c];
      return CompanySaved(c.id);
    }

    /** company_toggle: only is_active flips. */
    method ToggleCompany(rawId: string) returns (outcome: MasterOutcome)
      requires Valid()
      modifies this
      ensures Valid() && branches == old(branches)
      ensures outcome == Toggled <==> ParseInt(rawId).Some? && FindCompany(old(companies), ParseInt(rawId).value).Some?
      ensures outcome == Toggled ==>
                var k := FindCompany(old(companies), ParseInt(rawId).value).value;
                companies == old(companies)[k := old(companies)[k].(isActive := !old(companies)[k].isActive)]
      ensures outcome != Toggled ==> companies == old(companies)
    {
      var cid := ParseInt(rawId);
      if cid.None? {
        return BadNumber;
      }
      var found := FindCompany(companies, cid.value);
      if found.None? {
        return NotFound;
      }
      var k := found.value;
      var c := companies[k];
      ReplaceCompanyKeepsValid(companies, branches, k, c.(isActive := !c.isActive));
      companies := companies[k := c.(isActive := !c.isActive)];
      return Toggled;
    }

    /** branch_add and branch_update (`adding` tells which). */
    method SaveBranch(f: BranchForm, adding: bool) returns (outcome: MasterOutcome)
      requires Valid()
      modifies this
      ensures Valid() && companies == old(companies)
      ensures outcome == BranchDecision(old(companies), old(branches), f, adding)
      ensures outcome.BranchSaved? && adding ==>
                branches == old(branches) + [BranchFromForm(outcome.id, ParseInt(f.companyId).value, f)]
      ensures outcome.BranchSaved? && !adding ==>
                var k := FindBranch(old(branches), outcome.id).value;
                branches == old(branches)[k := BranchFromForm(outcome.id, old(branches)[k].companyId, f)]
      ensures !outcome.BranchSaved? ==> branches == old(branches)
    {
      var cid := ParseInt(f.companyId);
      if cid.None? {
        return BadNumber;
      }
      var name := Strip(f.name);
      if name == [] {
        return NameRequired;
      }
      var except: Option<int> := None;
      if !adding {
        except := ParseInt(f.branchId);
        if except.None? {
          return BadNumber;
        }
      }
      if BranchNameTaken(branches, cid.value, name, except) {
        return BranchNameExists;
      }
      if adding {
        if FindCompany(companies, cid.value).None? {
          return ConstraintFailed;
        }
        var b := BranchFromForm(NextBranchId(branches), cid.value, f);
        AppendBranchKeepsValid(companies, branches, b);
        branches := branches + [b];
        return BranchSaved(b.id);
      }
      var found := FindBranch(branches, except.value);
      if found.None? {
        return NotFound;
      }
      var k := found.value;
      var b := BranchFromForm(except.value as nat, branches[k].companyId, f);
      if BranchHeldByOther(branches, b.id, b.companyId, name) {
        return ConstraintFailed;
      }
      ReplaceBranchKeepsValid(companies, branches, k, b);
      branches := branches[k := b];
      return BranchSaved(b.id);
    }

    /** branch_toggle: only is_active flips. */
    method ToggleBranch(rawId: string) returns (outcome: MasterOutcome)
      requires Valid()
      modifies this
      ensures Valid() && companies == old(companies)
      ensures outcome == Toggled <==> ParseInt(rawId).Some? && FindBranch(old(branches), ParseInt(rawId).value).Some?
      ensures outcome == Toggled ==>
                var k := FindBranch(old(branches), ParseInt(rawId).value).value;
                branches == old(branches)[k := old(branches)[k].(isActive := !old(branches)[k].isActive)]
      ensures outcome != Toggled ==> branches == old(branches)
    {
      var bid := ParseInt(rawId);
      if bid.None? {
        return BadNumber;
      }
      var found := FindBranch(branches, bid.value);
      if found.None? {
        return NotFound;
      }
      var k := found.value;
      var b := branches[k];
      ReplaceBranchKeepsValid(companies, branches, k, b.(isActive := !b.isActive));
      branches := branches[k := b.(isActive := !b.isActive)];
      return Toggled;
    }
  }
}
