/**
 * Leads (app/leads/routes.py): who may see and reassign a lead, the checks of
 * the create form, and the spreadsheet import that numbers new leads and
 * creates unknown services and industries once each.
 */
module Leads {
  import opened Wrappers
  import opened Text
  import opened Numbers
  import opened Accounts
  import opened Team
  import opened Calendar

  const VIEW_ALL := "leads.view_all"

  // ------------------------------------------------------------ visibility

  /**
   * `_allowed_lead_owner_ids`: None (no restriction) with leads.view_all,
   * otherwise the user and everyone below the user.
   */
  method AllowedLeadOwnerIds(u: User, profiles: seq<Profile>) returns (allowed: Option<set<int>>)
    ensures allowed.None? <==> HasPerm(u, VIEW_ALL)
    ensures allowed.Some? ==> forall x :: x in allowed.value <==> x == u.id || Below(profiles, u.id, x)
  {
    if HasPerm(u, VIEW_ALL) {
      return None;
    }
    var team := LeadTeamUserIds(profiles, u.id);
    return Some({u.id} + team);
  }

  /** `_enforce_lead_access`: passes when unrestricted or when the owner is allowed; otherwise 403. */
  predicate CanAccess(allowed: Option<set<int>>, ownerId: int)
  {
    allowed.None? || ownerId in allowed.value
  }

  /**
   * The owner filter of the lead list: "me" filters on the user; a digit
   * string on that owner when allowed, else on the user; anything else does
   * not filter.
   */
  function OwnerFilter(owner: string, me: int, allowed: Option<set<int>>): (r: Option<int>)
    ensures r.None? <==> owner != "me" && !IsDigits(owner)
    ensures owner == "me" ==> r == Some(me)
    ensures r.Some? && r.value != me ==> IsDigits(owner) && r.value == DigitsValue(owner)
    ensures r.Some? && allowed.Some? && me in allowed.value ==> r.value in allowed.value
  {
    if owner == "me" then Some(me)
    else if IsDigits(owner) then
      var oid := DigitsValue(owner);
      if allowed.None? || oid in allowed.value then Some(oid) else Some(me)
    else None
  }

  // ------------------------------------------------------------ leads

  datatype Lead = Lead(
    id: nat, code: string, name: string, company: string, email: string,
    phoneCountry: string, phone: string, location: string, website: string, notes: string,
    ownerId: int, statusId: Option<int>, sourceId: Option<int>, serviceId: Option<int>,
    industryId: Option<int>, clientId: Option<int>, branchId: Option<int>, closureDate: Option<int>)

  /** A LeadService or Industry row. */
  datatype Master = Master(id: nat, name: string, isActive: bool)

  predicate LeadIdsAscending(leads: seq<Lead>)
  {
    (forall i :: 0 <= i < |leads| ==> leads[i].id >= 1) &&
    (forall i, j :: 0 <= i < j < |leads| ==> leads[i].id < leads[j].id)
  }

  predicate MasterIdsAscending(ms: seq<Master>)
  {
    (forall i :: 0 <= i < |ms| ==> ms[i].id >= 1) &&
    (forall i, j :: 0 <= i < j < |ms| ==> ms[i].id < ms[j].id)
  }

  /** The id after the largest one (`coalesce(max(id), 0) + 1`). */
  function NextLeadId(leads: seq<Lead>): (n: nat)
    ensures n >= 1
  {
    if leads == [] then 1 else leads[|leads| - 1].id + 1
  }

  function NextMasterId(ms: seq<Master>): (n: nat)
    ensures n >= 1
  {
    if ms == [] then 1 else ms[|ms| - 1].id + 1
  }

  /** `LD-%06d`. */
  function LeadCode(n: nat): string
  {
    "LD-" + Pad6(n)
  }

  /** Python truthiness of an optional id: present and not zero. */
  predicate Truthy(o: Option<nat>)
  {
    o.Some? && o.value != 0
  }

  /** `(v or "+91").strip()`. */
  function PhoneCountry(raw: string): string
  {
    if raw == "" then "+91" else Strip(raw)
  }

  /** A ClientBranch row as the create form sees it. */
  datatype BranchRef = BranchRef(id: int, clientId: int)

  function FindBranch(branches: seq<BranchRef>, id: int): (b: Option<BranchRef>)
    ensures b.Some? ==> b.value in branches && b.value.id == id
    ensures b.None? ==> forall x :: x in branches ==> x.id != id
  {
    if branches == [] then None
    else if branches[0].id == id then Some(branches[0])
    else FindBranch(branches[1..], id)
  }

  /** The create form's fields; a missing field is "". */
  datatype LeadForm = LeadForm(
    clientId: string, branchId: string, name: string, company: string, email: string,
    phoneCountry: string, phone: string, location: string, industryId: string, website: string,
    notes: string, statusId: string, sourceId: string, serviceId: string, closureDate: string)

  /** A branch may be chosen only together with a client it belongs to. */
  predicate BranchConsistent(client: Option<nat>, branch: Option<nat>, branches: seq<BranchRef>)
  {
    !Truthy(branch) ||
    (Truthy(client) && FindBranch(branches, branch.value).Some? &&
     FindBranch(branches, branch.value).value.clientId == client.value)
  }

  /** The row `create_lead` stores for an accepted form, with its parsed closure date. */
  function FormLead(f: LeadForm, me: int, id: nat, closure: Option<int>): Lead
  {
    Lead(id, LeadCode(id), Strip(f.name), Strip(f.company), Lower(Strip(f.email)),
         PhoneCountry(f.phoneCountry), Strip(f.phone), Strip(f.location), Strip(f.website), Strip(f.notes),
         me, OptInt(DigitId(f.statusId)), OptInt(DigitId(f.sourceId)), OptInt(DigitId(f.serviceId)),
         OptInt(DigitId(f.industryId)), OptInt(DigitId(Strip(f.clientId))), OptInt(DigitId(Strip(f.branchId))), closure)
  }

  datatype CreateOutcome = BranchNeedsClient | BranchOfOtherClient | LeadBadDate | LeadNameRequired | LeadCreated(lead: Lead)

  datatype AssignOutcome = LeadNotFound | AccessDenied | InvalidOwner | OwnerOutsideTeam | UnknownOwner | Reassigned

  /** The position of the lead with that id. */
  function FindLead(leads: seq<Lead>, id: int): (k: Option<nat>)
    ensures k.Some? ==> k.value < |leads| && leads[k.value].id == id
    ensures k.None? ==> forall i :: 0 <= i < |leads| ==> leads[i].id != id
  {
    if leads == [] then None
    else if leads[|leads| - 1].id == id then Some(|leads| - 1)
    else
      var k := FindLead(leads[..|leads| - 1], id);
      assert forall i :: 0 <= i < |leads| - 1 ==> leads[..|leads| - 1][i] == leads[i];
      k
  }

  // ------------------------------------------------------------ import sheet

  /** The first sheet: header cells and the data rows below them; None for an empty cell. */
  datatype Sheet = Sheet(header: seq<Option<string>>, rows: seq<seq<Option<string>>>)

  /** `str(v or "").strip().lower()`. */
  function HeaderKey(v: Option<string>): string
  {
    if v.Some? then Lower(Strip(v.value)) else ""
  }

  /** The column a header key names: the last one carrying it, as later headers overwrite earlier ones. */
  function Col(header: seq<Option<string>>, key: string): (c: Option<nat>)
    ensures c.Some? ==> c.value < |header| && HeaderKey(header[c.value]) == key
    ensures c.None? ==> forall j :: 0 <= j < |header| ==> HeaderKey(header[j]) != key
  {
    if header == [] then None
    else if HeaderKey(header[|header| - 1]) == key then Some(|header| - 1)
    else
      var c := Col(header[..|header| - 1], key);
      assert forall j :: 0 <= j < |header| - 1 ==> header[..|header| - 1][j] == header[j];
      c
  }

  /** A cell's text, "" for an empty cell or an absent column. */
  function Cell(row: seq<Option<string>>, c: Option<nat>): string
  {
    if c.Some? && c.value < |row| && row[c.value].Some? then row[c.value].value else ""
  }

  /** The text of a named column, stripped. */
  function Field(s: Sheet, row: seq<Option<string>>, key: string): string
  {
    Strip(Cell(row, Col(s.header, key)))
  }

  /** The rows with a name, the ones the import turns into leads. */
  function NamedRows(s: Sheet, rows: seq<seq<Option<string>>>): (r: seq<seq<Option<string>>>)
    ensures |r| <= |rows|
    ensures forall x :: x in r <==> x in rows && Field(s, x, "name") != ""
  {
    if rows == [] then []
    else
      var last := rows[|rows| - 1];
      assert forall x :: x in rows <==> x in rows[..|rows| - 1] || x == last;
      NamedRows(s, rows[..|rows| - 1]) + (if Field(s, last, "name") != "" then [last] else [])
  }

  lemma NamedRowsStep(s: Sheet, rows: seq<seq<Option<string>>>, r: nat)
    requires r < |rows|
    ensures NamedRows(s, rows[..r + 1]) ==
              NamedRows(s, rows[..r]) + (if Field(s, rows[r], "name") != "" then [rows[r]] else [])
  {
    assert rows[..r + 1][..r] == rows[..r];
  }

  /** A master table keyed by stripped, lower-cased name; active rows only, a later row wins. */
  function KeyMap(ms: seq<Master>): map<string, nat>
  {
    if ms == [] then map[]
    else
      var last := ms[|ms| - 1];
      var m := KeyMap(ms[..|ms| - 1]);
      if last.isActive then m[Lower(Strip(last.name)) := last.id] else m
  }

  /** Some active row of the table has this id and this key. */
  predicate Has(table: seq<Master>, id: nat, key: string)
  {
    exists k :: 0 <= k < |table| && table[k].id == id && Lower(Strip(table[k].name)) == key && table[k].isActive
  }

  /** Every id the map hands out belongs to a row with that key. */
  predicate MapSound(m: map<string, nat>, table: seq<Master>)
  {
    forall key :: key in m && m[key] != 0 ==> Has(table, m[key], key)
  }

  lemma {:induction false} KeyMapSound(ms: seq<Master>)
    ensures MapSound(KeyMap(ms), ms)
  {
    if ms != [] {
      var init := ms[..|ms| - 1];
      KeyMapSound(init);
      forall key | key in KeyMap(ms) && KeyMap(ms)[key] != 0
        ensures Has(ms, KeyMap(ms)[key], key)
      {
        var last := ms[|ms| - 1];
        if last.isActive && key == Lower(Strip(last.name)) {
          assert ms[|ms| - 1] == last;
        } else {
          var k :| 0 <= k < |init| && init[k].id == KeyMap(init)[key] && Lower(Strip(init[k].name)) == key && init[k].isActive;
          assert ms[k] == init[k];
        }
      }
    }
  }

  lemma HasGrows(table: seq<Master>, extra: seq<Master>, id: nat, key: string)
    requires Has(table, id, key)
    ensures Has(table + extra, id, key)
  {
    var k :| 0 <= k < |table| && table[k].id == id && Lower(Strip(table[k].name)) == key && table[k].isActive;
    assert (table + extra)[k] == table[k];
  }

  /** A row found in a table is still found once the table has grown at its end. */
  lemma HasExtends(table: seq<Master>, table': seq<Master>, id: nat, key: string)
    requires Has(table, id, key) && |table| <= |table'| && table'[..|table|] == table
    ensures Has(table', id, key)
  {
    var k :| 0 <= k < |table| && table[k].id == id && Lower(Strip(table[k].name)) == key && table[k].isActive;
    assert table'[k] == table[k];
  }

  /** `status_map.get(key) if key else None`. */
  function Lookup(m: map<string, nat>, key: string): Option<int>
  {
    if key != "" && key in m then Some(m[key]) else None
  }

  /** The keys a name map answers with an id; `if not service_id` takes an id of 0 as missing. */
  function Known(m: map<string, nat>): set<string>
  {
    set key | key in m && m[key] != 0
  }

  /** The names a master table's rows carry, active or not: what its `unique=True` name column guards. */
  function Names(table: seq<Master>): set<string>
  {
    set i | 0 <= i < |table| :: table[i].name
  }

  /** The key a named row resolves for a column: none for a blank cell or an unnamed row. */
  function RowKey(s: Sheet, row: seq<Option<string>>, column: string): set<string>
  {
    if Field(s, row, "name") != "" && Field(s, row, column) != "" then {Lower(Field(s, row, column))} else {}
  }

  /** The keys the row loop has resolved for a column after these rows, starting from `known`. */
  function KeysAfter(s: Sheet, rows: seq<seq<Option<string>>>, column: string, known: set<string>): set<string>
  {
    if rows == [] then known
    else KeysAfter(s, rows[..|rows| - 1], column, known) + RowKey(s, rows[|rows| - 1], column)
  }

  /**
   * A named row whose cell spells a key the map does not know, as a name a
   * row of the table already carries: the new row's flush raises IntegrityError.
   */
  predicate RowClashes(s: Sheet, row: seq<Option<string>>, column: string, known: set<string>, names: set<string>)
  {
    Field(s, row, "name") != "" && Field(s, row, column) != "" &&
    Lower(Field(s, row, column)) !in known && Field(s, row, column) in names
  }

  /** Some row of the sheet clashes in this column, given the keys resolved by the rows before it. */
  predicate Clashes(s: Sheet, rows: seq<seq<Option<string>>>, column: string, known: set<string>, names: set<string>)
  {
    rows != [] &&
    (Clashes(s, rows[..|rows| - 1], column, known, names) ||
     RowClashes(s, rows[|rows| - 1], column, KeysAfter(s, rows[..|rows| - 1], column, known), names))
  }

  /**
   * The import fails: some row's new service or industry repeats a name the
   * table holds. The `except` records the row, but the session is then rolled
   * back and the final `commit` raises, so nothing of the import is saved.
   */
  predicate ImportClashes(s: Sheet, rows: seq<seq<Option<string>>>, services: seq<Master>, industries: seq<Master>)
  {
    Clashes(s, rows, "service", Known(KeyMap(services)), Names(services)) ||
    Clashes(s, rows, "industry", Known(KeyMap(industries)), Names(industries))
  }

  lemma ClashStep(s: Sheet, rows: seq<seq<Option<string>>>, r: nat, column: string, known: set<string>, names: set<string>)
    requires r < |rows|
    ensures KeysAfter(s, rows[..r + 1], column, known) == KeysAfter(s, rows[..r], column, known) + RowKey(s, rows[r], column)
    ensures Clashes(s, rows[..r + 1], column, known, names) ==
              (Clashes(s, rows[..r], column, known, names) ||
               RowClashes(s, rows[r], column, KeysAfter(s, rows[..r], column, known), names))
  {
    assert rows[..r + 1][..r] == rows[..r];
  }

  /** The loop only adds keys. */
  lemma {:induction false} KeysAfterGrows(s: Sheet, rows: seq<seq<Option<string>>>, column: string, known: set<string>)
    ensures known <= KeysAfter(s, rows, column, known)
  {
    if rows != [] {
      KeysAfterGrows(s, rows[..|rows| - 1], column, known);
    }
  }

  /** Every active row's key is answered by the name map built from the table. */
  lemma {:induction false} ActiveRowKnown(ms: seq<Master>, i: nat)
    requires MasterIdsAscending(ms) && i < |ms| && ms[i].isActive
    ensures Lower(Strip(ms[i].name)) in Known(KeyMap(ms))
  {
    var init := ms[..|ms| - 1];
    if i < |ms| - 1 {
      assert init[i] == ms[i];
      ActiveRowKnown(init, i);
      var key := Lower(Strip(ms[i].name));
      assert key in KeyMap(init) && KeyMap(init)[key] != 0;
      assert ms[|ms| - 1].id >= 1;
    }
  }

  /**
   * Only a name held by an inactive row can clash: over a table whose rows
   * are all active, no sheet makes the import fail.
   */
  lemma {:induction false} NoClashWhenAllActive(s: Sheet, rows: seq<seq<Option<string>>>, column: string, t: seq<Master>)
    requires MasterIdsAscending(t) && forall i :: 0 <= i < |t| ==> t[i].isActive
    ensures !Clashes(s, rows, column, Known(KeyMap(t)), Names(t))
  {
    if rows != [] {
      var init := rows[..|rows| - 1];
      var row := rows[|rows| - 1];
      NoClashWhenAllActive(s, init, column, t);
      var n := Field(s, row, column);
      if n in Names(t) {
        var i :| 0 <= i < |t| && t[i].name == n;
        StripIdempotent(Cell(row, Col(s.header, column)));
        ActiveRowKnown(t, i);
        KeysAfterGrows(s, init, column, Known(KeyMap(t)));
      }
    }
  }

  /** Outside the rows the import added, a table holds the same names as before the import. */
  lemma NamesOfTracked(m0: map<string, nat>, m: map<string, nat>, table0: seq<Master>, table: seq<Master>, name: string)
    requires Tracked(m0, m, table0, table) && Lower(name) !in Known(m)
    ensures name in Names(table) <==> name in Names(table0)
  {
    forall j | |table0| <= j < |table| ensures Lower(table[j].name) in Known(m) {
      assert table[|table0|..][j - |table0|] == table[j];
    }
    if name in Names(table) {
      var i :| 0 <= i < |table| && table[i].name == name;
      assert i < |table0|;
      assert table0[i] == table[i];
    }
    if name in Names(table0) {
      var i :| 0 <= i < |table0| && table0[i].name == name;
      assert table[i] == table0[i];
    }
  }

  /**
   * The service (or industry) step of an import row: a known key reuses its
   * id; an unknown one adds an active row named as typed and records its id
   * under the key, so later rows reuse it. `clash` reports that the new row
   * repeats a name the table holds, which makes the source's flush raise; the
   * import is then discarded, so what is returned with it is never saved.
   */
  method GetOrCreate(name: string, m: map<string, nat>, table: seq<Master>)
    returns (id: nat, m': map<string, nat>, table': seq<Master>, clash: bool)
    requires name != "" && Strip(name) == name
    requires MapSound(m, table) && MasterIdsAscending(table)
    ensures MapSound(m', table') && MasterIdsAscending(table') && id != 0
    ensures Has(table', id, Lower(name)) && Lower(name) in m' && m'[Lower(name)] == id
    ensures Lower(name) in m && m[Lower(name)] != 0 ==> id == m[Lower(name)] && m' == m && table' == table
    ensures !(Lower(name) in m && m[Lower(name)] != 0) ==>
              id == NextMasterId(table) && table' == table + [Master(id, name, true)] && m' == m[Lower(name) := id]
    ensures Known(m') == Known(m) + {Lower(name)}
    ensures clash <==> Lower(name) !in Known(m) && name in Names(table)
  {
    var key := Lower(name);
    var found := if key in m then m[key] else 0;
    if found != 0 {
      var k :| 0 <= k < |table| && table[k].id == found && Lower(Strip(table[k].name)) == key && table[k].isActive;
      return found, m, table, false;
    }
    clash := name in Names(table);
    id := NextMasterId(table);
    table' := table + [Master(id, name, true)];
    m' := m[key := id];
    assert table'[|table|].id == id && Lower(Strip(table'[|table|].name)) == key;
    forall k | k in m' && m'[k] != 0 ensures Has(table', m'[k], k) {
      if k != key {
        HasGrows(table, [Master(id, name, true)], m[k], k);
      }
    }
    forall i | 0 <= i < |table| ensures table[i].id < id {
      assert i == |table| - 1 || table[i].id < table[|table| - 1].id;
    }
  }

  /** The lead an import row with a name becomes. */
  function SheetLead(s: Sheet, row: seq<Option<string>>, id: nat, me: int,
                     serviceId: Option<int>, industryId: Option<int>,
                     statuses: map<string, nat>, sources: map<string, nat>): Lead
  {
    Lead(id, LeadCode(id), Field(s, row, "name"), Field(s, row, "company"), Lower(Field(s, row, "email")),
         PhoneCountry(Cell(row, Col(s.header, "phone_country"))), Field(s, row, "phone"),
         Field(s, row, "location"), Field(s, row, "website"), Field(s, row, "notes"), me,
         Lookup(statuses, Lower(Field(s, row, "status"))), Lookup(sources, Lower(Field(s, row, "source"))),
         serviceId, industryId, None, None, None)
  }

  /** An imported lead names the service and industry its row spells, by id, or none for a blank cell. */
  predicate Linked(l: Lead, s: Sheet, row: seq<Option<string>>, services: seq<Master>, industries: seq<Master>)
  {
    (Field(s, row, "service") == "" <==> l.serviceId.None?) &&
    (l.serviceId.Some? ==> l.serviceId.value >= 1 && Has(services, l.serviceId.value, Lower(Field(s, row, "service")))) &&
    (Field(s, row, "industry") == "" <==> l.industryId.None?) &&
    (l.industryId.Some? ==> l.industryId.value >= 1 && Has(industries, l.industryId.value, Lower(Field(s, row, "industry"))))
  }

  /** The rows added to a master table carry pairwise different keys, none of them known before. */
  predicate FreshKeys(m0: map<string, nat>, added: seq<Master>)
  {
    (forall i, j :: 0 <= i < j < |added| ==> Lower(added[i].name) != Lower(added[j].name)) &&
    (forall i :: 0 <= i < |added| ==> !(Lower(added[i].name) in m0 && m0[Lower(added[i].name)] != 0))
  }

  /** The map still answers every key it answered before, and every added row is in it. */
  predicate MapTracks(m0: map<string, nat>, m: map<string, nat>, added: seq<Master>)
  {
    (forall key :: key in m0 && m0[key] != 0 ==> key in m && m[key] == m0[key]) &&
    (forall i :: 0 <= i < |added| ==> Lower(added[i].name) in m && m[Lower(added[i].name)] == added[i].id && added[i].id != 0)
  }

  /** One GetOrCreate step keeps the added rows' keys fresh and tracked. */
  lemma TrackStep(m0: map<string, nat>, m: map<string, nat>, table: seq<Master>, n0: nat,
                  name: string, id: nat, m': map<string, nat>, table': seq<Master>)
    requires n0 <= |table| && FreshKeys(m0, table[n0..]) && MapTracks(m0, m, table[n0..])
    requires Lower(name) in m && m[Lower(name)] != 0 ==> id == m[Lower(name)] && m' == m && table' == table
    requires !(Lower(name) in m && m[Lower(name)] != 0) ==>
               id != 0 && table' == table + [Master(id, name, true)] && m' == m[Lower(name) := id]
    ensures n0 <= |table'| && FreshKeys(m0, table'[n0..]) && MapTracks(m0, m', table'[n0..])
  {
    if !(Lower(name) in m && m[Lower(name)] != 0) {
      var added := table[n0..];
      assert table'[n0..] == added + [Master(id, name, true)];
      forall i | 0 <= i < |added| ensures Lower(added[i].name) != Lower(name) {
      }
    }
  }

  datatype ImportOutcome = NoFileSelected | UnsupportedFile | MissingNameColumn | ImportFailed | Imported(created: nat, skipped: nat)

  /** The leads table with the two masters the import can extend. */
  class LeadBook {
    var leads: seq<Lead>
    var services: seq<Master>
    var industries: seq<Master>

    predicate Valid()
      reads this
    {
      LeadIdsAscending(leads) && MasterIdsAscending(services) && MasterIdsAscending(industries)
    }

    constructor (services: seq<Master>, industries: seq<Master>)
      requires MasterIdsAscending(services) && MasterIdsAscending(industries)
      ensures leads == [] && this.services == services && this.industries == industries && Valid()
    {
      leads := [];
      this.services := services;
      this.industries := industries;
    }

    /**
     * POST of `create_lead`: a branch needs a client, and the branch must
     * belong to it; a closure date `strptime` cannot read raises while the
     * row is built and saves nothing; then a name is required. The new lead
     * is owned by the user and numbered after the last lead.
     */
    method Create(f: LeadForm, me: int, branches: seq<BranchRef>) returns (outcome: CreateOutcome)
      requires Valid()
      modifies this`leads
      ensures Valid() && services == old(services) && industries == old(industries)
      ensures var client, branch := DigitId(Strip(f.clientId)), DigitId(Strip(f.branchId));
              (Truthy(branch) && !Truthy(client) ==> outcome == BranchNeedsClient) &&
              (Truthy(branch) && Truthy(client) && !BranchConsistent(client, branch, branches) ==> outcome == BranchOfOtherClient) &&
              (outcome == LeadBadDate <==> BranchConsistent(client, branch, branches) && OptionalDate(f.closureDate).None?) &&
              (outcome.LeadCreated? <==>
                 BranchConsistent(client, branch, branches) && OptionalDate(f.closureDate).Some? && !IsBlank(f.name))
      ensures outcome.LeadCreated? ==>
                outcome.lead == FormLead(f, me, NextLeadId(old(leads)), OptionalDate(f.closureDate).value) &&
                leads == old(leads) + [outcome.lead]
      ensures !outcome.LeadCreated? ==> leads == old(leads)
    {
      var client := DigitId(Strip(f.clientId));
      var branch := DigitId(Strip(f.branchId));
      if Truthy(branch) && !Truthy(client) {
        return BranchNeedsClient;
      }
      if Truthy(client) && Truthy(branch) {
        var br := FindBranch(branches, branch.value);
        if br.None? || br.value.clientId != client.value {
          return BranchOfOtherClient;
        }
      }
      var closure := OptionalDate(f.closureDate);
      if closure.None? {
        return LeadBadDate;
      }
      if Strip(f.name) == [] {
        return LeadNameRequired;
      }
      var lead := FormLead(f, me, NextLeadId(leads), closure.value);
      AppendLeadKeepsAscending(leads, lead);
      leads := leads + [lead];
      return LeadCreated(lead);
    }

    /**
     * `assign_lead`: the lead must exist and be visible; the new owner must
     * be a digit string and, when visibility is restricted, an allowed id.
     * Only owner_id changes. An id with no user row (`userIds` are the ids of
     * the users table) passes the handler, but the foreign key
     * `owner_id -> users.id` refuses it at commit: `UnknownOwner`.
     */
    method Assign(leadId: int, ownerRaw: string, allowed: Option<set<int>>, userIds: set<int>)
      returns (outcome: AssignOutcome)
      requires Valid()
      modifies this`leads
      ensures Valid() && services == old(services) && industries == old(industries)
      ensures var k := FindLead(old(leads), leadId);
              (k.None? ==> outcome == LeadNotFound) &&
              (k.Some? && !CanAccess(allowed, old(leads)[k.value].ownerId) ==> outcome == AccessDenied) &&
              (outcome == UnknownOwner <==>
                 k.Some? && CanAccess(allowed, old(leads)[k.value].ownerId) && IsDigits(ownerRaw) &&
                 CanAccess(allowed, DigitsValue(ownerRaw)) && DigitsValue(ownerRaw) !in userIds) &&
              (outcome == Reassigned <==>
                 k.Some? && CanAccess(allowed, old(leads)[k.value].ownerId) && IsDigits(ownerRaw) &&
                 CanAccess(allowed, DigitsValue(ownerRaw)) && DigitsValue(ownerRaw) in userIds) &&
              (outcome == Reassigned ==> leads == old(leads)[k.value := old(leads)[k.value].(ownerId := DigitsValue(ownerRaw))])
      ensures outcome != Reassigned ==> leads == old(leads)
    {
      var k := FindLead(leads, leadId);
      if k.None? {
        return LeadNotFound;
      }
      if !CanAccess(allowed, leads[k.value].ownerId) {
        return AccessDenied;
      }
      if !IsDigits(ownerRaw) {
        return InvalidOwner;
      }
      var newOwner := DigitsValue(ownerRaw);
      if allowed.Some? && newOwner !in allowed.value {
        return OwnerOutsideTeam;
      }
      if newOwner !in userIds {
        return UnknownOwner;
      }
      leads := leads[k.value := leads[k.value].(ownerId := newOwner)];
      return Reassigned;
    }

    /**
     * `import_leads`: an .xlsx/.xlsm file with a "name" column; each row
     * without a name is skipped, each other row becomes a lead owned by the
     * user and numbered on from the largest id. Unknown service and industry
     * names are created once, with their first spelling, and reused.
     * The source tests the extension of `secure_filename(filename)`; that
     * sanitising step is not modelled, so `fileName` is taken as already
     * sanitised.
     */
    method Import(fileName: string, s: Sheet, me: int, statuses: seq<Master>, sources: seq<Master>)
      returns (outcome: ImportOutcome)
      requires Valid()
      modifies this
      ensures Valid()
      ensures fileName == "" ==> outcome == NoFileSelected
      ensures fileName != "" && !EndsWith(Lower(fileName), ".xlsx") && !EndsWith(Lower(fileName), ".xlsm") ==>
                outcome == UnsupportedFile
      ensures outcome.Imported? <==>
                fileName != "" && (EndsWith(Lower(fileName), ".xlsx") || EndsWith(Lower(fileName), ".xlsm")) &&
                Col(s.header, "name").Some? && !ImportClashes(s, s.rows, old(services), old(industries))
      ensures outcome == ImportFailed <==>
                fileName != "" && (EndsWith(Lower(fileName), ".xlsx") || EndsWith(Lower(fileName), ".xlsm")) &&
                Col(s.header, "name").Some? && ImportClashes(s, s.rows, old(services), old(industries))
      ensures !outcome.Imported? ==>
                leads == old(leads) && services == old(services) && industries == old(industries)
      ensures outcome.Imported? ==>
                outcome.created == |NamedRows(s, s.rows)| && outcome.created + outcome.skipped == |s.rows| &&
                LeadsFromRows(leads, old(leads), NamedRows(s, s.rows), s, me, services, industries)
      ensures outcome.Imported? ==>
                Grown(KeyMap(old(services)), old(services), services) &&
                Grown(KeyMap(old(industries)), old(industries), industries)
    {
      if fileName == "" {
        return NoFileSelected;
      }
      if !EndsWith(Lower(fileName), ".xlsx") && !EndsWith(Lower(fileName), ".xlsm") {
        return UnsupportedFile;
      }
      if Col(s.header, "name").None? {
        return MissingNameColumn;
      }
      var created, skipped, failed := ImportRows(s, me, statuses, sources);
      if failed {
        return ImportFailed;
      }
      return Imported(created, skipped);
    }

    /** The row loop of `import_leads`, once the file and its header have been accepted. */
    method ImportRows(s: Sheet, me: int, statuses: seq<Master>, sources: seq<Master>)
      returns (created: nat, skipped: nat, failed: bool)
      requires Valid()
      modifies this
      ensures Valid()
      ensures failed == ImportClashes(s, s.rows, old(services), old(industries))
      ensures failed ==> leads == old(leads) && services == old(services) && industries == old(industries)
      ensures !failed ==> created == |NamedRows(s, s.rows)| && created + skipped == |s.rows|
      ensures !failed ==> LeadsFromRows(leads, old(leads), NamedRows(s, s.rows), s, me, services, industries)
      ensures !failed ==> Grown(KeyMap(old(services)), old(services), services) &&
                          Grown(KeyMap(old(industries)), old(industries), industries)
    {
      var ls, svc, ind;
      created, skipped, ls, svc, ind, failed := ImportAll(s, me, KeyMap(statuses), KeyMap(sources), leads, services, industries);
      if !failed {
        leads, services, industries := ls, svc, ind;
      }
    }
  }

  /** The rows of a sheet, in order, against the leads and the two masters as they stand. */
  method ImportAll(s: Sheet, me: int, statusMap: map<string, nat>, sourceMap: map<string, nat>,
                   leads: seq<Lead>, services: seq<Master>, industries: seq<Master>)
    returns (created: nat, skipped: nat, leads': seq<Lead>, services': seq<Master>, industries': seq<Master>, failed: bool)
    requires LeadIdsAscending(leads) && MasterIdsAscending(services) && MasterIdsAscending(industries)
    ensures failed == ImportClashes(s, s.rows, services, industries)
    ensures LeadIdsAscending(leads')
    ensures created == |NamedRows(s, s.rows)| && created + skipped == |s.rows|
    ensures LeadsFromRows(leads', leads, NamedRows(s, s.rows), s, me, services', industries')
    ensures Grown(KeyMap(services), services, services') && Grown(KeyMap(industries), industries, industries')
  {
    var svcMap, indMap := KeyMap(services), KeyMap(industries);
    KeyMapSound(services);
    KeyMapSound(industries);
    ghost var sm0, im0 := svcMap, indMap;
    leads', services', industries' := leads, services, industries;
    assert services'[|services|..] == [] && industries'[|industries|..] == [];
    created, skipped, failed := 0, 0, false;
    var r := 0;
    while r < |s.rows|
      invariant 0 <= r <= |s.rows| && LeadIdsAscending(leads')
      invariant Tracked(sm0, svcMap, services, services') && Tracked(im0, indMap, industries, industries')
      invariant ClashState(s, s.rows[..r], services, industries, svcMap, indMap, failed)
      invariant created == |NamedRows(s, s.rows[..r])| && created + skipped == r
      invariant LeadsFromRows(leads', leads, NamedRows(s, s.rows[..r]), s, me, services', industries')
    {
      NamedRowsStep(s, s.rows, r);
      var named;
      leads', services', industries', svcMap, indMap, failed, named :=
        ImportStep(s, r, me, statusMap, sourceMap, leads', services', industries', svcMap, indMap, failed,
                   leads, services, industries, sm0, im0);
      if named {
        created := created + 1;
      } else {
        skipped := skipped + 1;
      }
      r := r + 1;
    }
    assert s.rows[..r] == s.rows;
    assert NamedRows(s, s.rows[..r]) == NamedRows(s, s.rows);
    assert ClashState(s, s.rows, services, industries, svcMap, indMap, failed);
  }

  /** Row `r` of the loop: a named row is imported, an unnamed one skipped; the failure flag takes in its clash. */
  method ImportStep(s: Sheet, r: nat, me: int, statusMap: map<string, nat>, sourceMap: map<string, nat>,
                    leads: seq<Lead>, services: seq<Master>, industries: seq<Master>,
                    svcMap: map<string, nat>, indMap: map<string, nat>, failed: bool,
                    ghost leads0: seq<Lead>, ghost svc0: seq<Master>, ghost ind0: seq<Master>,
                    ghost sm0: map<string, nat>, ghost im0: map<string, nat>)
    returns (leads': seq<Lead>, services': seq<Master>, industries': seq<Master>,
             svcMap': map<string, nat>, indMap': map<string, nat>, failed': bool, named: bool)
    requires r < |s.rows| && LeadIdsAscending(leads) && sm0 == KeyMap(svc0) && im0 == KeyMap(ind0)
    requires Tracked(sm0, svcMap, svc0, services) && Tracked(im0, indMap, ind0, industries)
    requires ClashState(s, s.rows[..r], svc0, ind0, svcMap, indMap, failed)
    requires LeadsFromRows(leads, leads0, NamedRows(s, s.rows[..r]), s, me, services, industries)
    ensures named <==> Field(s, s.rows[r], "name") != ""
    ensures LeadIdsAscending(leads')
    ensures Tracked(sm0, svcMap', svc0, services') && Tracked(im0, indMap', ind0, industries')
    ensures ClashState(s, s.rows[..r + 1], svc0, ind0, svcMap', indMap', failed')
    ensures LeadsFromRows(leads', leads0, NamedRows(s, s.rows[..r]) + (if named then [s.rows[r]] else []),
                          s, me, services', industries')
  {
    var row := s.rows[r];
    var clash := false;
    named := Field(s, row, "name") != "";
    leads', services', industries', svcMap', indMap' := leads, services, industries, svcMap, indMap;
    if named {
      leads', services', industries', svcMap', indMap', clash :=
        ImportRow(s, row, me, statusMap, sourceMap, leads, services, industries, svcMap, indMap,
                  leads0, NamedRows(s, s.rows[..r]), svc0, ind0, sm0, im0);
    }
    ClashInvariantStep(s, s.rows, r, svc0, ind0, svcMap, indMap, svcMap', indMap', failed, clash);
    failed' := failed || clash;
  }

  /** After `rows`, the name maps know exactly the keys resolved so far and `failed` says whether a row clashed. */
  predicate ClashState(s: Sheet, rows: seq<seq<Option<string>>>, services: seq<Master>, industries: seq<Master>,
                       svcMap: map<string, nat>, indMap: map<string, nat>, failed: bool)
  {
    Known(svcMap) == KeysAfter(s, rows, "service", Known(KeyMap(services))) &&
    Known(indMap) == KeysAfter(s, rows, "industry", Known(KeyMap(industries))) &&
    failed == ImportClashes(s, rows, services, industries)
  }

  /** One row of the loop carries the resolved keys and the failure flag from `rows[..r]` to `rows[..r + 1]`. */
  lemma ClashInvariantStep(s: Sheet, rows: seq<seq<Option<string>>>, r: nat, services: seq<Master>, industries: seq<Master>,
                           svcMap: map<string, nat>, indMap: map<string, nat>,
                           svcMap': map<string, nat>, indMap': map<string, nat>, failed: bool, clash: bool)
    requires r < |rows|
    requires ClashState(s, rows[..r], services, industries, svcMap, indMap, failed)
    requires Known(svcMap') == Known(svcMap) + RowKey(s, rows[r], "service")
    requires Known(indMap') == Known(indMap) + RowKey(s, rows[r], "industry")
    requires clash == (RowClashes(s, rows[r], "service", Known(svcMap), Names(services)) ||
                       RowClashes(s, rows[r], "industry", Known(indMap), Names(industries)))
    ensures ClashState(s, rows[..r + 1], services, industries, svcMap', indMap', failed || clash)
  {
    ClashStep(s, rows, r, "service", Known(KeyMap(services)), Names(services));
    ClashStep(s, rows, r, "industry", Known(KeyMap(industries)), Names(industries));
  }

  /** One named row: its service and industry are looked up or created, then its lead is appended. */
  method ImportRow(s: Sheet, row: seq<Option<string>>, me: int, statusMap: map<string, nat>, sourceMap: map<string, nat>,
                   leads: seq<Lead>, services: seq<Master>, industries: seq<Master>,
                   svcMap: map<string, nat>, indMap: map<string, nat>, ghost leads0: seq<Lead>,
                   ghost named: seq<seq<Option<string>>>, ghost svc0: seq<Master>, ghost ind0: seq<Master>,
                   ghost sm0: map<string, nat>, ghost im0: map<string, nat>)
    returns (leads': seq<Lead>, services': seq<Master>, industries': seq<Master>,
             svcMap': map<string, nat>, indMap': map<string, nat>, clash: bool)
    requires Field(s, row, "name") != "" && LeadIdsAscending(leads)
    requires Tracked(sm0, svcMap, svc0, services) && Tracked(im0, indMap, ind0, industries)
    requires LeadsFromRows(leads, leads0, named, s, me, services, industries)
    ensures LeadIdsAscending(leads')
    ensures Tracked(sm0, svcMap', svc0, services') && Tracked(im0, indMap', ind0, industries')
    ensures LeadsFromRows(leads', leads0, named + [row], s, me, services', industries')
    ensures Known(svcMap') == Known(svcMap) + RowKey(s, row, "service")
    ensures Known(indMap') == Known(indMap) + RowKey(s, row, "industry")
    ensures clash == (RowClashes(s, row, "service", Known(svcMap), Names(svc0)) ||
                      RowClashes(s, row, "industry", Known(indMap), Names(ind0)))
  {
    var serviceId, industryId, clashS, clashI;
    StripIdempotent(Cell(row, Col(s.header, "service")));
    StripIdempotent(Cell(row, Col(s.header, "industry")));
    serviceId, svcMap', services', clashS := Resolve(Field(s, row, "service"), svcMap, services, sm0, svc0);
    industryId, indMap', industries', clashI := Resolve(Field(s, row, "industry"), indMap, industries, im0, ind0);
    clash := clashS || clashI;
    NextIdAfterRows(leads, leads0, named, s, me, services, industries);
    var lead := SheetLead(s, row, NextLeadId(leads), me, serviceId, industryId, statusMap, sourceMap);
    SheetLeadIsRowLead(s, row, NextLeadId(leads), me, serviceId, industryId, statusMap, sourceMap, services', industries');
    AppendRowLead(leads, leads0, named, s, me, services, industries, services', industries', row, lead);
    AppendLeadKeepsAscending(leads, lead);
    leads' := leads + [lead];
  }

  /**
   * The service (or industry) cell of a row: blank gives no id, otherwise
   * the id GetOrCreate finds or makes for the name, and whether making it
   * repeats a name the table held before the import.
   */
  method Resolve(name: string, m: map<string, nat>, table: seq<Master>, ghost m0: map<string, nat>, ghost table0: seq<Master>)
    returns (id: Option<int>, m': map<string, nat>, table': seq<Master>, clash: bool)
    requires Strip(name) == name && Tracked(m0, m, table0, table)
    ensures Tracked(m0, m', table0, table') && |table| <= |table'| && table'[..|table|] == table
    ensures name == "" <==> id.None?
    ensures id.Some? ==> id.value >= 1 && Has(table', id.value, Lower(name))
    ensures Known(m') == Known(m) + (if name == "" then {} else {Lower(name)})
    ensures clash <==> name != "" && Lower(name) !in Known(m) && name in Names(table0)
  {
    if name == "" {
      return None, m, table, false;
    }
    var n, m2, t2;
    n, m2, t2, clash := GetOrCreate(name, m, table);
    if Lower(name) !in Known(m) {
      NamesOfTracked(m0, m, table0, table, name);
    }
    TrackedStep(m0, m, table0, table, name, n, m2, t2);
    return Some(n), m2, t2, clash;
  }

  /** One GetOrCreate step keeps a tracked table tracked, grown at its end only. */
  lemma TrackedStep(m0: map<string, nat>, m: map<string, nat>, table0: seq<Master>, table: seq<Master>,
                    name: string, id: nat, m': map<string, nat>, table': seq<Master>)
    requires Tracked(m0, m, table0, table)
    requires MapSound(m', table') && MasterIdsAscending(table')
    requires Lower(name) in m && m[Lower(name)] != 0 ==> id == m[Lower(name)] && m' == m && table' == table
    requires !(Lower(name) in m && m[Lower(name)] != 0) ==>
               id != 0 && table' == table + [Master(id, name, true)] && m' == m[Lower(name) := id]
    ensures Tracked(m0, m', table0, table') && |table| <= |table'| && table'[..|table|] == table
  {
    TrackStep(m0, m, table, |table0|, name, id, m', table');
    if table' != table {
      assert table'[..|table|] == table;
      assert table'[..|table0|] == table[..|table0|];
    }
  }

  lemma AppendLeadKeepsAscending(leads: seq<Lead>, lead: Lead)
    requires LeadIdsAscending(leads) && lead.id == NextLeadId(leads)
    ensures LeadIdsAscending(leads + [lead])
  {
    forall i | 0 <= i < |leads| ensures leads[i].id < lead.id {
      assert i == |leads| - 1 || leads[i].id < leads[|leads| - 1].id;
    }
  }

  /** An imported lead: numbered `id`, named as its row, owned by the importer, linked to its masters. */
  predicate RowLead(l: Lead, id: nat, s: Sheet, row: seq<Option<string>>, me: int,
                    services: seq<Master>, industries: seq<Master>)
  {
    l.id == id && l.code == LeadCode(id) && l.name == Field(s, row, "name") && l.name != "" &&
    l.ownerId == me && Linked(l, s, row, services, industries)
  }

  /** A named row's lead, with the ids its service and industry cells resolved to, is that row's lead. */
  lemma SheetLeadIsRowLead(s: Sheet, row: seq<Option<string>>, id: nat, me: int,
                           serviceId: Option<int>, industryId: Option<int>,
                           statuses: map<string, nat>, sources: map<string, nat>,
                           services: seq<Master>, industries: seq<Master>)
    requires Field(s, row, "name") != ""
    requires Field(s, row, "service") == "" <==> serviceId.None?
    requires serviceId.Some? ==> serviceId.value >= 1 && Has(services, serviceId.value, Lower(Field(s, row, "service")))
    requires Field(s, row, "industry") == "" <==> industryId.None?
    requires industryId.Some? ==> industryId.value >= 1 && Has(industries, industryId.value, Lower(Field(s, row, "industry")))
    ensures RowLead(SheetLead(s, row, id, me, serviceId, industryId, statuses, sources), id, s, row, me, services, industries)
  {
  }

  /** `leads` is `leads0` followed by one lead per named row, numbered on from `leads0`. */
  predicate LeadsFromRows(leads: seq<Lead>, leads0: seq<Lead>, named: seq<seq<Option<string>>>, s: Sheet, me: int,
                          services: seq<Master>, industries: seq<Master>)
  {
    |leads| == |leads0| + |named| && leads[..|leads0|] == leads0 &&
    forall i :: 0 <= i < |named| ==>
      RowLead(leads[|leads0| + i], NextLeadId(leads0) + i, s, named[i], me, services, industries)
  }

  /** A master table grown only at its end, by rows whose keys were unknown and differ from each other. */
  predicate Grown(m0: map<string, nat>, table0: seq<Master>, table: seq<Master>)
  {
    |table0| <= |table| && table[..|table0|] == table0 && MasterIdsAscending(table) &&
    FreshKeys(m0, table[|table0|..])
  }

  /** The import's view of a master table: grown, and the running map sound and tracking the new rows. */
  predicate Tracked(m0: map<string, nat>, m: map<string, nat>, table0: seq<Master>, table: seq<Master>)
  {
    Grown(m0, table0, table) && MapSound(m, table) && MapTracks(m0, m, table[|table0|..])
  }

  lemma NextIdAfterRows(leads: seq<Lead>, leads0: seq<Lead>, named: seq<seq<Option<string>>>, s: Sheet, me: int,
                        services: seq<Master>, industries: seq<Master>)
    requires LeadsFromRows(leads, leads0, named, s, me, services, industries)
    ensures NextLeadId(leads) == NextLeadId(leads0) + |named|
  {
    if named == [] {
      assert leads == leads[..|leads0|];
    } else {
      assert RowLead(leads[|leads0| + |named| - 1], NextLeadId(leads0) + |named| - 1, s, named[|named| - 1], me, services, industries);
    }
  }

  lemma AppendRowLead(leads: seq<Lead>, leads0: seq<Lead>, named: seq<seq<Option<string>>>, s: Sheet, me: int,
                      svc: seq<Master>, ind: seq<Master>, svc': seq<Master>, ind': seq<Master>,
                      row: seq<Option<string>>, lead: Lead)
    requires LeadsFromRows(leads, leads0, named, s, me, svc, ind)
    requires |svc| <= |svc'| && svc'[..|svc|] == svc && |ind| <= |ind'| && ind'[..|ind|] == ind
    requires RowLead(lead, NextLeadId(leads0) + |named|, s, row, me, svc', ind')
    ensures LeadsFromRows(leads + [lead], leads0, named + [row], s, me, svc', ind')
  {
    var leads', named' := leads + [lead], named + [row];
    assert leads'[..|leads0|] == leads0;
    forall i | 0 <= i < |named'|
      ensures RowLead(leads'[|leads0| + i], NextLeadId(leads0) + i, s, named'[i], me, svc', ind')
    {
      if i < |named| {
        var l := leads[|leads0| + i];
        assert leads'[|leads0| + i] == l && named'[i] == named[i];
        RowLeadGrows(l, NextLeadId(leads0) + i, s, named[i], me, svc, ind, svc', ind');
      }
    }
  }

  /** A lead stays its row's lead when the masters grow at their ends. */
  lemma RowLeadGrows(l: Lead, id: nat, s: Sheet, row: seq<Option<string>>, me: int,
                     svc: seq<Master>, ind: seq<Master>, svc': seq<Master>, ind': seq<Master>)
    requires RowLead(l, id, s, row, me, svc, ind)
    requires |svc| <= |svc'| && svc'[..|svc|] == svc && |ind| <= |ind'| && ind'[..|ind|] == ind
    ensures RowLead(l, id, s, row, me, svc', ind')
  {
    if l.serviceId.Some? {
      HasExtends(svc, svc', l.serviceId.value, Lower(Field(s, row, "service")));
    }
    if l.industryId.Some? {
      HasExtends(ind, ind', l.industryId.value, Lower(Field(s, row, "industry")));
    }
  }
}
