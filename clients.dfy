/**
 * Clients, their branches, branch contacts and documents
 * (app/clients/routes.py). The directory keeps three rules: every branch has a
 * contact (a branch is created together with its first contact and the last
 * contact cannot be deleted), a branch has at most one primary contact, and
 * no client has two branches at the same location.
 */
module Clients {
  import opened Wrappers
  import opened Text
  import opened Numbers
  import opened Calendar

  /** `_clean(v) or old`: a blank submission keeps the old value. */
  function OrKeep(raw: string, current: string): (r: string)
    ensures IsBlank(raw) ==> r == current
    ensures !IsBlank(raw) ==> r == Strip(raw) && r != []
  {
    if IsBlank(raw) then current else Strip(raw)
  }

  /** `int(v) if v else None` on a cleaned value; None inside Some where `int` raises. */
  function OptionalInt(raw: string): (r: Option<Option<int>>)
    ensures IsBlank(raw) ==> r == Some(None)
  {
    if IsBlank(raw) then Some(None)
    else if ParseInt(raw).Some? then Some(Some(ParseInt(raw).value))
    else None
  }

  // ------------------------------------------------------------ rows

  datatype Client = Client(
    id: nat, companyName: string, industryId: Option<int>, service: Option<string>,
    clientType: Option<string>, website: Option<string>, reference: Option<string>, pan: Option<string>,
    category: Option<string>, remarks: Option<string>, isActive: bool)

  datatype Branch = Branch(
    id: nat, clientId: int, location: string, address: Option<string>, city: Option<string>,
    state: Option<string>, country: Option<string>, pinCode: Option<string>, gst: Option<string>, isActive: bool)

  datatype Contact = Contact(
    id: nat, branchId: int, name: string, phone: Option<string>, email: Option<string>,
    designation: Option<string>, isPrimary: bool)

  datatype Document = Document(
    id: nat, clientId: int, quoteId: Option<int>, name: string, startDate: int, expiryDate: int, fileName: string)

  /** A quote as the document form sees it: its id and its client. */
  datatype QuoteRef = QuoteRef(id: int, clientId: int)

  // ------------------------------------------------------------ forms (a missing field is "")

  datatype ClientForm = ClientForm(
    companyName: string, industryId: string, service: string, clientType: string, website: string,
    reference: string, pan: string, category: string, remarks: string, isActive: string)

  datatype BranchForm = BranchForm(
    location: string, address: string, city: string, state: string, country: string,
    pinCode: string, gst: string, isActive: string)

  datatype ContactForm = ContactForm(name: string, phone: string, email: string, designation: string, isPrimary: string)

  datatype DocForm = DocForm(name: string, startDate: string, expiryDate: string, quoteId: string)

  // ------------------------------------------------------------ document checks

  const ALLOWED_DOC_EXT: set<string> := {"pdf", "png", "jpg", "jpeg", "doc", "docx", "xlsx"}
  const MAX_UPLOAD_BYTES: nat := 5 * 1024 * 1024

  datatype DocCheck = DocNameRequired | DatesRequired | InvalidDate | ExpiryBeforeStart | InvalidQuoteNumber
                    | InvalidQuote | FileRequired | InvalidFileType | FileTooLarge
                    | DocOk(quoteId: Option<int>, startDate: int, expiryDate: int)

  /**
   * The checks of the upload_document action, in order: a name, both dates,
   * valid dates, expiry not before start, a quote (when one is given) of this
   * client, a file, an allowed extension and the size limit.
   */
  function CheckDocument(clientId: int, f: DocForm, quotes: seq<QuoteRef>, rawFileName: string, safeName: string,
                         contentLength: Option<nat>): (r: DocCheck)
    ensures r.DocOk? ==>
              !IsBlank(f.name) && ParseIsoDate(Strip(f.startDate)) == Some(r.startDate) &&
              ParseIsoDate(Strip(f.expiryDate)) == Some(r.expiryDate) && r.startDate <= r.expiryDate &&
              (r.quoteId.Some? ==> QuoteRef(r.quoteId.value, clientId) in quotes) &&
              rawFileName != "" && Extension(safeName) in ALLOWED_DOC_EXT &&
              (contentLength.None? || contentLength.value <= MAX_UPLOAD_BYTES)
    ensures IsBlank(f.name) ==> r == DocNameRequired
  {
    var start, expiry := ParseIsoDate(Strip(f.startDate)), ParseIsoDate(Strip(f.expiryDate));
    if IsBlank(f.name) then DocNameRequired
    else if IsBlank(f.startDate) || IsBlank(f.expiryDate) then DatesRequired
    else if start.None? || expiry.None? then InvalidDate
    else if expiry.value < start.value then ExpiryBeforeStart
    else if OptionalInt(f.quoteId).None? then InvalidQuoteNumber
    else
      var q := OptionalInt(f.quoteId).value;
      if q.Some? && QuoteRef(q.value, clientId) !in quotes then InvalidQuote
      else if rawFileName == "" then FileRequired
      else if Extension(safeName) !in ALLOWED_DOC_EXT then InvalidFileType
      else if contentLength.Some? && contentLength.value > MAX_UPLOAD_BYTES then FileTooLarge
      else DocOk(q, start.value, expiry.value)
  }

  // ------------------------------------------------------------ directory rules

  /** The ids of the branches. */
  function BranchIds(bs: seq<Branch>): set<int>
  {
    set i | 0 <= i < |bs| :: bs[i].id
  }

  /** The branches the contacts belong to. */
  function LinkedBranches(cs: seq<Contact>): set<int>
  {
    set j | 0 <= j < |cs| :: cs[j].branchId
  }

  /**
   * Every branch has at least one contact and every contact belongs to an
   * existing branch: the branches with contacts are exactly the branches.
   */
  predicate ContactsCoverBranches(branches: seq<Branch>, contacts: seq<Contact>)
  {
    LinkedBranches(contacts) == BranchIds(branches)
  }

  /** No branch has two primary contacts. */
  predicate OnePrimaryPerBranch(contacts: seq<Contact>)
  {
    forall i, j :: 0 <= i < j < |contacts| && contacts[i].branchId == contacts[j].branchId ==>
      !(contacts[i].isPrimary && contacts[j].isPrimary)
  }

  /** `uq_client_branch_location`: no client has two branches at the same location. */
  predicate LocationsUnique(bs: seq<Branch>)
  {
    forall i, j :: 0 <= i < j < |bs| && bs[i].clientId == bs[j].clientId ==> bs[i].location != bs[j].location
  }

  /** No branch of the client, other than the one with id `self`, is at `loc`. */
  predicate LocationFree(bs: seq<Branch>, clientId: int, loc: string, self: int)
  {
    forall i :: 0 <= i < |bs| && bs[i].clientId == clientId && bs[i].id != self ==> bs[i].location != loc
  }

  predicate ClientIdsAscending(cs: seq<Client>)
  {
    (forall i :: 0 <= i < |cs| ==> cs[i].id >= 1) && (forall i, j :: 0 <= i < j < |cs| ==> cs[i].id < cs[j].id)
  }

  predicate BranchIdsAscending(bs: seq<Branch>)
  {
    (forall i :: 0 <= i < |bs| ==> bs[i].id >= 1) && (forall i, j :: 0 <= i < j < |bs| ==> bs[i].id < bs[j].id)
  }

  predicate ContactIdsAscending(cs: seq<Contact>)
  {
    (forall i :: 0 <= i < |cs| ==> cs[i].id >= 1) && (forall i, j :: 0 <= i < j < |cs| ==> cs[i].id < cs[j].id)
  }

  predicate DocumentIdsAscending(ds: seq<Document>)
  {
    (forall i :: 0 <= i < |ds| ==> ds[i].id >= 1) && (forall i, j :: 0 <= i < j < |ds| ==> ds[i].id < ds[j].id)
  }

  function FindClient(cs: seq<Client>, id: int): (k: Option<nat>)
    ensures k.Some? ==> k.value < |cs| && cs[k.value].id == id
    ensures k.None? ==> forall i :: 0 <= i < |cs| ==> cs[i].id != id
  {
    if cs == [] then None
    else if cs[|cs| - 1].id == id then Some(|cs| - 1)
    else
      var k := FindClient(cs[..|cs| - 1], id);
      assert forall i :: 0 <= i < |cs| - 1 ==> cs[..|cs| - 1][i] == cs[i];
      k
  }

  function FindBranch(bs: seq<Branch>, id: int): (k: Option<nat>)
    ensures k.Some? ==> k.value < |bs| && bs[k.value].id == id
    ensures k.None? ==> forall i :: 0 <= i < |bs| ==> bs[i].id != id
  {
    if bs == [] then None
    else if bs[|bs| - 1].id == id then Some(|bs| - 1)
    else
      var k := FindBranch(bs[..|bs| - 1], id);
      assert forall i :: 0 <= i < |bs| - 1 ==> bs[..|bs| - 1][i] == bs[i];
      k
  }

  function FindContact(cs: seq<Contact>, id: int): (k: Option<nat>)
    ensures k.Some? ==> k.value < |cs| && cs[k.value].id == id
    ensures k.None? ==> forall i :: 0 <= i < |cs| ==> cs[i].id != id
  {
    if cs == [] then None
    else if cs[|cs| - 1].id == id then Some(|cs| - 1)
    else
      var k := FindContact(cs[..|cs| - 1], id);
      assert forall i :: 0 <= i < |cs| - 1 ==> cs[..|cs| - 1][i] == cs[i];
      k
  }

  function FindDocument(ds: seq<Document>, id: int): (k: Option<nat>)
    ensures k.Some? ==> k.value < |ds| && ds[k.value].id == id
    ensures k.None? ==> forall i :: 0 <= i < |ds| ==> ds[i].id != id
  {
    if ds == [] then None
    else if ds[|ds| - 1].id == id then Some(|ds| - 1)
    else
      var k := FindDocument(ds[..|ds| - 1], id);
      assert forall i :: 0 <= i < |ds| - 1 ==> ds[..|ds| - 1][i] == ds[i];
      k
  }

  /** `b.contacts.count()`. */
  function CountContacts(contacts: seq<Contact>, branchId: int): (n: nat)
    ensures n <= |contacts|
  {
    if contacts == [] then 0
    else CountContacts(contacts[..|contacts| - 1], branchId) + (if contacts[|contacts| - 1].branchId == branchId then 1 else 0)
  }

  /** A branch has a contact exactly when its count is positive. */
  lemma {:induction false} CountAtLeastOne(contacts: seq<Contact>, branchId: int)
    ensures CountContacts(contacts, branchId) >= 1 <==> branchId in LinkedBranches(contacts)
  {
    if contacts != [] {
      var init := contacts[..|contacts| - 1];
      CountAtLeastOne(init, branchId);
      LinksAppend(init, contacts[|contacts| - 1]);
      assert init + [contacts[|contacts| - 1]] == contacts;
    }
  }

  /** Two contacts of a branch at different positions mean a count of at least two, and back. */
  lemma {:induction false} CountAtLeastTwo(contacts: seq<Contact>, branchId: int, k: nat)
    requires k < |contacts| && contacts[k].branchId == branchId
    ensures CountContacts(contacts, branchId) >= 2 <==>
              exists j :: 0 <= j < |contacts| && j != k && contacts[j].branchId == branchId
  {
    var n := |contacts| - 1;
    var init := contacts[..n];
    CountAtLeastOne(init, branchId);
    if k == n {
      if branchId in LinkedBranches(init) {
        var j :| 0 <= j < |init| && init[j].branchId == branchId;
        assert contacts[j] == init[j];
      }
      if exists j :: 0 <= j < |contacts| && j != k && contacts[j].branchId == branchId {
        var j :| 0 <= j < |contacts| && j != k && contacts[j].branchId == branchId;
        assert init[j] == contacts[j];
      }
    } else {
      assert init[k] == contacts[k];
      assert branchId in LinkedBranches(init);
      CountAtLeastTwo(init, branchId, k);
      if exists j :: 0 <= j < |init| && j != k && init[j].branchId == branchId {
        var j :| 0 <= j < |init| && j != k && init[j].branchId == branchId;
        assert contacts[j] == init[j];
      }
      if exists j :: 0 <= j < |contacts| && j != k && contacts[j].branchId == branchId {
        var j :| 0 <= j < |contacts| && j != k && contacts[j].branchId == branchId;
        if j < n {
          assert init[j] == contacts[j];
        }
      }
    }
  }

  lemma LinksAppend(cs: seq<Contact>, c: Contact)
    ensures LinkedBranches(cs + [c]) == LinkedBranches(cs) + {c.branchId}
  {
    var t := cs + [c];
    forall x | x in LinkedBranches(cs) ensures x in LinkedBranches(t) {
      var j :| 0 <= j < |cs| && cs[j].branchId == x;
      assert t[j] == cs[j];
    }
    assert t[|cs|] == c;
  }

  lemma BranchIdsAppend(bs: seq<Branch>, b: Branch)
    ensures BranchIds(bs + [b]) == BranchIds(bs) + {b.id}
  {
    var t := bs + [b];
    forall x | x in BranchIds(bs) ensures x in BranchIds(t) {
      var i :| 0 <= i < |bs| && bs[i].id == x;
      assert t[i] == bs[i];
    }
    assert t[|bs|] == b;
  }

  lemma BranchIdsUpdate(bs: seq<Branch>, k: nat, b: Branch)
    requires k < |bs| && b.id == bs[k].id
    ensures BranchIds(bs[k := b]) == BranchIds(bs)
  {
    var t := bs[k := b];
    forall x | x in BranchIds(bs) ensures x in BranchIds(t) {
      var i :| 0 <= i < |bs| && bs[i].id == x;
      assert t[i].id == x;
    }
  }

  /** Removing a contact whose branch keeps another contact leaves the linked branches as they were. */
  lemma LinksRemove(cs: seq<Contact>, k: nat)
    requires k < |cs| && exists j :: 0 <= j < |cs| && j != k && cs[j].branchId == cs[k].branchId
    ensures LinkedBranches(cs[..k] + cs[k + 1..]) == LinkedBranches(cs)
  {
    var t := cs[..k] + cs[k + 1..];
    assert forall i :: 0 <= i < |t| ==> t[i] == cs[if i < k then i else i + 1];
    forall x | x in LinkedBranches(cs) ensures x in LinkedBranches(t) {
      var j :| 0 <= j < |cs| && cs[j].branchId == x;
      if j == k {
        j :| 0 <= j < |cs| && j != k && cs[j].branchId == cs[k].branchId;
      }
      assert t[if j < k then j else j - 1] == cs[j];
    }
  }

  /** The bulk `is_primary = False` over one branch's contacts; nothing else changes. */
  function ClearPrimary(contacts: seq<Contact>, branchId: int): (r: seq<Contact>)
    ensures |r| == |contacts|
    ensures forall i :: 0 <= i < |r| ==>
              r[i] == (if contacts[i].branchId == branchId then contacts[i].(isPrimary := false) else contacts[i])
  {
    seq(|contacts|, i requires 0 <= i < |contacts| =>
      if contacts[i].branchId == branchId then contacts[i].(isPrimary := false) else contacts[i])
  }

  /** Two contact lists with the same ids and branches at every position. */
  predicate SameLinks(a: seq<Contact>, b: seq<Contact>)
  {
    |a| == |b| && forall i :: 0 <= i < |a| ==> a[i].id == b[i].id && a[i].branchId == b[i].branchId
  }

  /** Rewriting contact fields other than id and branch keeps the links and the id order. */
  lemma SameLinksKeep(a: seq<Contact>, b: seq<Contact>)
    requires SameLinks(a, b)
    ensures LinkedBranches(a) == LinkedBranches(b)
    ensures ContactIdsAscending(a) ==> ContactIdsAscending(b)
  {
    forall x | x in LinkedBranches(a) ensures x in LinkedBranches(b) {
      var j :| 0 <= j < |a| && a[j].branchId == x;
      assert b[j].branchId == x;
    }
    forall x | x in LinkedBranches(b) ensures x in LinkedBranches(a) {
      var j :| 0 <= j < |b| && b[j].branchId == x;
      assert a[j].branchId == x;
    }
  }

  datatype ClientOutcome = ClientNotFound | ClientNameRequired | InvalidIndustry | ClientCreated(id: nat) | ClientUpdated

  datatype BranchOutcome = BranchClientNotFound | LocationRequired | LocationTaken | ContactRequired | BranchAdded(branchId: nat, contactId: nat)
                         | BranchNotFound | BranchUpdated

  datatype ContactOutcome = ContactBranchNotFound | ContactNameRequired | ContactAdded(id: nat)
                          | ContactNotFound | ContactUpdated | LastContact | ContactDeleted

  datatype DocumentOutcome = DocClientNotFound | DocRejected(reason: DocCheck) | DocumentAdded(id: nat)
                           | DocumentNotFound | DocumentDeleted

  function NextClientId(cs: seq<Client>): nat { if cs == [] then 1 else cs[|cs| - 1].id + 1 }
  function NextBranchId(bs: seq<Branch>): nat { if bs == [] then 1 else bs[|bs| - 1].id + 1 }
  function NextContactId(cs: seq<Contact>): nat { if cs == [] then 1 else cs[|cs| - 1].id + 1 }
  function NextDocumentId(ds: seq<Document>): nat { if ds == [] then 1 else ds[|ds| - 1].id + 1 }

  /** The client fields both the create and the update form write. */
  function ClientFromForm(id: nat, name: string, industry: Option<int>, f: ClientForm, isActive: bool): Client
  {
    Client(id, name, industry, OrNone(f.service), OrNone(f.clientType), OrNone(f.website), OrNone(f.reference),
           OrNone(f.pan), OrNone(f.category), OrNone(f.remarks), isActive)
  }

  function BranchFromForm(id: nat, clientId: int, location: string, f: BranchForm, isActive: bool): Branch
  {
    Branch(id, clientId, location, OrNone(f.address), OrNone(f.city), OrNone(f.state), OrNone(f.country),
           OrNone(f.pinCode), OrNone(f.gst), isActive)
  }

  /** The client directory. */
  class ClientBook {
    var clients: seq<Client>
    var branches: seq<Branch>
    var contacts: seq<Contact>
    var documents: seq<Document>

    predicate Valid()
      reads this
    {
      ClientIdsAscending(clients) && BranchIdsAscending(branches) && ContactIdsAscending(contacts) &&
      DocumentIdsAscending(documents) &&
      ContactsCoverBranches(branches, contacts) && OnePrimaryPerBranch(contacts) && LocationsUnique(branches)
    }

    constructor ()
      ensures Valid() && clients == [] && branches == [] && contacts == [] && documents == []
    {
      clients, branches, contacts, documents := [], [], [], [];
    }

    /** POST of the client list: a name is required; the new client is active. */
    method CreateClient(f: ClientForm) returns (outcome: ClientOutcome)
      requires Valid()
      modifies this
      ensures Valid() && branches == old(branches) && contacts == old(contacts) && documents == old(documents)
      ensures IsBlank(f.companyName) ==> outcome == ClientNameRequired
      ensures outcome.ClientCreated? <==> !IsBlank(f.companyName) && OptionalInt(f.industryId).Some?
      ensures outcome.ClientCreated? ==>
                outcome.id == NextClientId(old(clients)) &&
                clients == old(clients) + [ClientFromForm(outcome.id, Strip(f.companyName), OptionalInt(f.industryId).value, f, true)]
      ensures !outcome.ClientCreated? ==> clients == old(clients)
    {
      if IsBlank(f.companyName) {
        return ClientNameRequired;
      }
      var industry := OptionalInt(f.industryId);
      if industry.None? {
        return InvalidIndustry;
      }
      var id := NextClientId(clients);
      forall i | 0 <= i < |clients| ensures clients[i].id < id {
        assert i == |clients| - 1 || clients[i].id < clients[|clients| - 1].id;
      }
      clients := clients + [ClientFromForm(id, Strip(f.companyName), industry.value, f, true)];
      return ClientCreated(id);
    }

    /** The update_client action: a blank name keeps the old one; every other field is overwritten. */
    method UpdateClient(clientId: int, f: ClientForm) returns (outcome: ClientOutcome)
      requires Valid()
      modifies this
      ensures Valid() && branches == old(branches) && contacts == old(contacts) && documents == old(documents)
      ensures var k := FindClient(old(clients), clientId);
              (k.None? ==> outcome == ClientNotFound) &&
              (outcome == ClientUpdated <==> k.Some? && OptionalInt(f.industryId).Some?) &&
              (outcome == ClientUpdated ==>
                 clients == old(clients)[k.value := ClientFromForm(clientId, OrKeep(f.companyName, old(clients)[k.value].companyName),
                                                                   OptionalInt(f.industryId).value, f, f.isActive == "1")])
      ensures outcome != ClientUpdated ==> clients == old(clients)
    {
      var k := FindClient(clients, clientId);
      if k.None? {
        return ClientNotFound;
      }
      var industry := OptionalInt(f.industryId);
      if industry.None? {
        return InvalidIndustry;
      }
      clients := clients[k.value := ClientFromForm(clientId, OrKeep(f.companyName, clients[k.value].companyName),
                                                   industry.value, f, f.isActive == "1")];
      return ClientUpdated;
    }

    /**
     * The add_branch action: a location and a contact name are required;
     * the branch and its first contact, primary, are added together or not at all.
     * The branch is flushed before the contact name is read, so a location the
     * client already has fails on `uq_client_branch_location` first.
     */
    method AddBranch(clientId: int, f: BranchForm, contact: ContactForm) returns (outcome: BranchOutcome)
      requires Valid()
      modifies this
      ensures Valid() && clients == old(clients) && documents == old(documents)
      ensures FindClient(old(clients), clientId).None? ==> outcome == BranchClientNotFound
      ensures (FindClient(old(clients), clientId).Some? && !IsBlank(f.location) &&
               !LocationFree(old(branches), clientId, Strip(f.location), NextBranchId(old(branches)))) ==> outcome == LocationTaken
      ensures outcome.BranchAdded? <==>
                FindClient(old(clients), clientId).Some? && !IsBlank(f.location) &&
                LocationFree(old(branches), clientId, Strip(f.location), NextBranchId(old(branches))) && !IsBlank(contact.name)
      ensures outcome.BranchAdded? ==>
                outcome.branchId == NextBranchId(old(branches)) && outcome.contactId == NextContactId(old(contacts)) &&
                branches == old(branches) + [BranchFromForm(outcome.branchId, clientId, Strip(f.location), f, true)] &&
                contacts == old(contacts) + [Contact(outcome.contactId, outcome.branchId, Strip(contact.name),
                                                     OrNone(contact.phone), OrNone(contact.email), OrNone(contact.designation), true)]
      ensures !outcome.BranchAdded? ==> branches == old(branches) && contacts == old(contacts)
    {
      if FindClient(clients, clientId).None? {
        return BranchClientNotFound;
      }
      if IsBlank(f.location) {
        return LocationRequired;
      }
      if !LocationFree(branches, clientId, Strip(f.location), NextBranchId(branches)) {
        return LocationTaken;
      }
      if IsBlank(contact.name) {
        return ContactRequired;
      }
      var bid, cid := NextBranchId(branches), NextContactId(contacts);
      var b := BranchFromForm(bid, clientId, Strip(f.location), f, true);
      var c := Contact(cid, bid, Strip(contact.name), OrNone(contact.phone), OrNone(contact.email), OrNone(contact.designation), true);
      AddBranchKeepsRules(branches, contacts, b, c);
      AppendBranchKeepsLocations(branches, b);
      branches := branches + [b];
      contacts := contacts + [c];
      return BranchAdded(bid, cid);
    }

    /**
     * update_branch: a blank location keeps the old one; the other fields are
     * overwritten. The commit fails on `uq_client_branch_location` when another
     * branch of the client is at the new location.
     */
    method UpdateBranch(branchId: int, f: BranchForm) returns (outcome: BranchOutcome)
      requires Valid()
      modifies this
      ensures Valid() && clients == old(clients) && contacts == old(contacts) && documents == old(documents)
      ensures var k := FindBranch(old(branches), branchId);
              var loc := if k.Some? then OrKeep(f.location, old(branches)[k.value].location) else "";
              (outcome == BranchUpdated <==> k.Some? && LocationFree(old(branches), old(branches)[k.value].clientId, loc, branchId)) &&
              (k.Some? && !LocationFree(old(branches), old(branches)[k.value].clientId, loc, branchId) ==> outcome == LocationTaken) &&
              (outcome == BranchUpdated ==> branches == old(branches)[k.value := BranchFromForm(branchId, old(branches)[k.value].clientId,
                                                      OrKeep(f.location, old(branches)[k.value].location), f, f.isActive == "1")])
      ensures outcome != BranchUpdated ==> (outcome == BranchNotFound || outcome == LocationTaken) && branches == old(branches)
    {
      var k := FindBranch(branches, branchId);
      if k.None? {
        return BranchNotFound;
      }
      var prev := branches[k.value];
      var loc := OrKeep(f.location, prev.location);
      if !LocationFree(branches, prev.clientId, loc, branchId) {
        return LocationTaken;
      }
      var b := BranchFromForm(branchId, prev.clientId, loc, f, f.isActive == "1");
      ReplaceBranchKeepsLocations(branches, k.value, b);
      branches := branches[k.value := b];
      BranchIdsUpdate(old(branches), k.value, branches[k.value]);
      return BranchUpdated;
    }

    /**
     * add_contact: a name is required. A primary newcomer first clears the
     * flag on the branch's other contacts.
     */
    method AddContact(branchId: int, f: ContactForm) returns (outcome: ContactOutcome)
      requires Valid()
      modifies this
      ensures Valid() && clients == old(clients) && branches == old(branches) && documents == old(documents)
      ensures FindBranch(old(branches), branchId).None? ==> outcome == ContactBranchNotFound
      ensures outcome.ContactAdded? <==> FindBranch(old(branches), branchId).Some? && !IsBlank(f.name)
      ensures outcome.ContactAdded? ==>
                var c := Contact(outcome.id, branchId, Strip(f.name), OrNone(f.phone), OrNone(f.email),
                                 OrNone(f.designation), f.isPrimary == "1");
                outcome.id == NextContactId(old(contacts)) &&
                contacts == (if f.isPrimary == "1" then ClearPrimary(old(contacts), branchId) else old(contacts)) + [c]
      ensures !outcome.ContactAdded? ==> contacts == old(contacts)
    {
      if FindBranch(branches, branchId).None? {
        return ContactBranchNotFound;
      }
      if IsBlank(f.name) {
        return ContactNameRequired;
      }
      var isPrimary := f.isPrimary == "1";
      var id := NextContactId(contacts);
      var c := Contact(id, branchId, Strip(f.name), OrNone(f.phone), OrNone(f.email), OrNone(f.designation), isPrimary);
      assert branchId in BranchIds(branches) by {
        assert branches[FindBranch(branches, branchId).value].id == branchId;
      }
      AddContactKeepsRules(branches, contacts, c);
      contacts := (if isPrimary then ClearPrimary(contacts, branchId) else contacts) + [c];
      return ContactAdded(id);
    }

    /**
     * update_contact: a blank name keeps the old one, phone, email and
     * designation are overwritten; with is_primary=1 the contact becomes the
     * branch's only primary, otherwise its flag is kept.
     */
    method UpdateContact(contactId: int, f: ContactForm) returns (outcome: ContactOutcome)
      requires Valid()
      modifies this`contacts
      ensures Valid() && clients == old(clients) && branches == old(branches) && documents == old(documents)
      ensures var k := FindContact(old(contacts), contactId);
              (outcome == ContactUpdated <==> k.Some?) &&
              (k.Some? ==>
                 var c := old(contacts)[k.value];
                 var c' := c.(name := OrKeep(f.name, c.name), phone := OrNone(f.phone), email := OrNone(f.email),
                              designation := OrNone(f.designation), isPrimary := c.isPrimary || f.isPrimary == "1");
                 contacts == (if f.isPrimary == "1" then ClearPrimary(old(contacts), c.branchId) else old(contacts))[k.value := c'])
      ensures outcome != ContactUpdated ==> outcome == ContactNotFound && contacts == old(contacts)
      ensures outcome == ContactUpdated && f.isPrimary == "1" ==>
                var k := FindContact(old(contacts), contactId).value;
                contacts[k].isPrimary &&
                forall j :: 0 <= j < |contacts| && j != k && contacts[j].branchId == contacts[k].branchId ==> !contacts[j].isPrimary
    {
      var k := FindContact(contacts, contactId);
      if k.None? {
        return ContactNotFound;
      }
      var c := contacts[k.value];
      var makePrimary := f.isPrimary == "1";
      var c' := c.(name := OrKeep(f.name, c.name), phone := OrNone(f.phone), email := OrNone(f.email),
                   designation := OrNone(f.designation), isPrimary := c.isPrimary || makePrimary);
      var updated := (if makePrimary then ClearPrimary(contacts, c.branchId) else contacts)[k.value := c'];
      EditContactKeepsRules(contacts, k.value, c', makePrimary);
      contacts := updated;
      return ContactUpdated;
    }

    /** delete_contact: refused while the branch has at most one contact. */
    method DeleteContact(contactId: int) returns (outcome: ContactOutcome)
      requires Valid()
      modifies this`contacts
      ensures Valid() && clients == old(clients) && branches == old(branches) && documents == old(documents)
      ensures var k := FindContact(old(contacts), contactId);
              (k.None? ==> outcome == ContactNotFound) &&
              (k.Some? && CountContacts(old(contacts), old(contacts)[k.value].branchId) <= 1 ==> outcome == LastContact) &&
              (outcome == ContactDeleted <==> k.Some? && CountContacts(old(contacts), old(contacts)[k.value].branchId) >= 2) &&
              (outcome == ContactDeleted ==> contacts == old(contacts)[..k.value] + old(contacts)[k.value + 1..])
      ensures outcome != ContactDeleted ==> contacts == old(contacts)
    {
      var cs;
      outcome, cs := RemoveContact(branches, contacts, contactId);
      contacts := cs;
    }

    /** The upload_document action: the checks of CheckDocument, then one new document row. */
    method UploadDocument(clientId: int, f: DocForm, quotes: seq<QuoteRef>, rawFileName: string, safeName: string,
                          contentLength: Option<nat>) returns (outcome: DocumentOutcome)
      requires Valid()
      modifies this`documents
      ensures Valid() && clients == old(clients) && branches == old(branches) && contacts == old(contacts)
      ensures FindClient(old(clients), clientId).None? ==> outcome == DocClientNotFound
      ensures var chk := CheckDocument(clientId, f, quotes, rawFileName, safeName, contentLength);
              FindClient(old(clients), clientId).Some? ==>
                (!chk.DocOk? ==> outcome == DocRejected(chk)) &&
                (chk.DocOk? ==>
                   outcome == DocumentAdded(NextDocumentId(old(documents))) &&
                   documents == old(documents) + [Document(NextDocumentId(old(documents)), clientId, chk.quoteId,
                                                           Strip(f.name), chk.startDate, chk.expiryDate, safeName)])
      ensures !outcome.DocumentAdded? ==> documents == old(documents)
    {
      if FindClient(clients, clientId).None? {
        return DocClientNotFound;
      }
      var chk := CheckDocument(clientId, f, quotes, rawFileName, safeName, contentLength);
      if !chk.DocOk? {
        return DocRejected(chk);
      }
      var id := NextDocumentId(documents);
      var doc := Document(id, clientId, chk.quoteId, Strip(f.name), chk.startDate, chk.expiryDate, safeName);
      AppendDocumentKeepsOrder(documents, doc);
      documents := documents + [doc];
      return DocumentAdded(id);
    }

    /** delete_client_document: the row goes; removing the stored file is outside the model. */
    method DeleteDocument(docId: int) returns (outcome: DocumentOutcome)
      requires Valid()
      modifies this
      ensures Valid() && clients == old(clients) && branches == old(branches) && contacts == old(contacts)
      ensures var k := FindDocument(old(documents), docId);
              (outcome == DocumentDeleted <==> k.Some?) &&
              (k.Some? ==> documents == old(documents)[..k.value] + old(documents)[k.value + 1..])
      ensures outcome != DocumentDeleted ==> outcome == DocumentNotFound && documents == old(documents)
    {
      var k := FindDocument(documents, docId);
      if k.None? {
        return DocumentNotFound;
      }
      RemoveDocumentKeepsOrder(documents, k.value);
      documents := documents[..k.value] + documents[k.value + 1..];
      return DocumentDeleted;
    }
  }

  /** The row change of delete_contact, on the contacts as they stand. */
  method RemoveContact(branches: seq<Branch>, contacts: seq<Contact>, contactId: int)
    returns (outcome: ContactOutcome, contacts': seq<Contact>)
    requires ContactIdsAscending(contacts) && ContactsCoverBranches(branches, contacts) && OnePrimaryPerBranch(contacts)
    ensures ContactIdsAscending(contacts') && ContactsCoverBranches(branches, contacts') && OnePrimaryPerBranch(contacts')
    ensures var k := FindContact(contacts, contactId);
            (k.None? ==> outcome == ContactNotFound) &&
            (k.Some? && CountContacts(contacts, contacts[k.value].branchId) <= 1 ==> outcome == LastContact) &&
            (outcome == ContactDeleted <==> k.Some? && CountContacts(contacts, contacts[k.value].branchId) >= 2) &&
            (outcome == ContactDeleted ==> contacts' == contacts[..k.value] + contacts[k.value + 1..])
    ensures outcome != ContactDeleted ==> contacts' == contacts
  {
    var k := FindContact(contacts, contactId);
    if k.None? {
      return ContactNotFound, contacts;
    }
    var b := contacts[k.value].branchId;
    if CountContacts(contacts, b) <= 1 {
      return LastContact, contacts;
    }
    CountAtLeastTwo(contacts, b, k.value);
    RemoveContactKeepsRules(branches, contacts, k.value);
    return ContactDeleted, contacts[..k.value] + contacts[k.value + 1..];
  }

  /** A document numbered after the last one keeps the ids ascending. */
  lemma AppendDocumentKeepsOrder(ds: seq<Document>, d: Document)
    requires DocumentIdsAscending(ds) && d.id == NextDocumentId(ds)
    ensures DocumentIdsAscending(ds + [d])
  {
    forall i | 0 <= i < |ds| ensures ds[i].id < d.id {
      assert i == |ds| - 1 || ds[i].id < ds[|ds| - 1].id;
    }
  }

  /**
   * Rewriting one contact's name, phone, email and designation, and with
   * is_primary=1 clearing its branch's other flags, keeps ids, links and
   * the one-primary rule, and leaves it the branch's only primary.
   */
  lemma EditContactKeepsRules(contacts: seq<Contact>, k: int, c': Contact, makePrimary: bool)
    requires 0 <= k < |contacts| && ContactIdsAscending(contacts) && OnePrimaryPerBranch(contacts)
    requires c'.id == contacts[k].id && c'.branchId == contacts[k].branchId
    requires c'.isPrimary == (contacts[k].isPrimary || makePrimary)
    ensures var updated := (if makePrimary then ClearPrimary(contacts, contacts[k].branchId) else contacts)[k := c'];
            ContactIdsAscending(updated) && LinkedBranches(updated) == LinkedBranches(contacts) &&
            OnePrimaryPerBranch(updated) &&
            (makePrimary ==> forall j :: 0 <= j < |updated| && j != k && updated[j].branchId == updated[k].branchId ==>
                                           !updated[j].isPrimary)
  {
    var updated := (if makePrimary then ClearPrimary(contacts, contacts[k].branchId) else contacts)[k := c'];
    assert SameLinks(contacts, updated);
    SameLinksKeep(contacts, updated);
    forall i, j | 0 <= i < j < |updated| && updated[i].branchId == updated[j].branchId
      ensures !(updated[i].isPrimary && updated[j].isPrimary)
    {
      if !makePrimary {
        assert updated[i].isPrimary == contacts[i].isPrimary && updated[j].isPrimary == contacts[j].isPrimary;
      }
    }
  }

  /** Removing one document keeps the remaining ids ascending. */
  lemma RemoveDocumentKeepsOrder(ds: seq<Document>, k: nat)
    requires DocumentIdsAscending(ds) && k < |ds|
    ensures DocumentIdsAscending(ds[..k] + ds[k + 1..])
  {
    var rest := ds[..k] + ds[k + 1..];
    forall i, j | 0 <= i < j < |rest| ensures rest[i].id < rest[j].id {
      var i', j' := if i < k then i else i + 1, if j < k then j else j + 1;
      assert rest[i] == ds[i'] && rest[j] == ds[j'];
    }
  }

  /** A new branch at a location its client does not have yet keeps locations unique per client. */
  lemma {:induction false} AppendBranchKeepsLocations(bs: seq<Branch>, b: Branch)
    requires LocationsUnique(bs) && LocationFree(bs, b.clientId, b.location, b.id)
    requires forall i :: 0 <= i < |bs| ==> bs[i].id != b.id
    ensures LocationsUnique(bs + [b])
  {
    var t := bs + [b];
    forall i, j | 0 <= i < j < |t| && t[i].clientId == t[j].clientId ensures t[i].location != t[j].location {
      assert t[i] == bs[i];
      if j < |bs| {
        assert t[j] == bs[j];
      }
    }
  }

  /**
   * Overwriting a branch in place, same id and client, with a location no
   * other branch of the client has keeps locations unique per client.
   */
  lemma {:induction false} ReplaceBranchKeepsLocations(bs: seq<Branch>, k: nat, b: Branch)
    requires k < |bs| && BranchIdsAscending(bs) && LocationsUnique(bs)
    requires b.id == bs[k].id && b.clientId == bs[k].clientId && LocationFree(bs, b.clientId, b.location, b.id)
    ensures LocationsUnique(bs[k := b])
  {
    var t := bs[k := b];
    forall i, j | 0 <= i < j < |t| && t[i].clientId == t[j].clientId ensures t[i].location != t[j].location {
      if i == k {
        assert bs[j].id != b.id;
      } else if j == k {
        assert bs[i].id != b.id;
      }
    }
  }

  lemma AddBranchKeepsRules(branches: seq<Branch>, contacts: seq<Contact>, b: Branch, c: Contact)
    requires BranchIdsAscending(branches) && ContactIdsAscending(contacts)
    requires ContactsCoverBranches(branches, contacts) && OnePrimaryPerBranch(contacts)
    requires b.id == NextBranchId(branches) && c.id == NextContactId(contacts) && c.branchId == b.id
    ensures BranchIdsAscending(branches + [b]) && ContactIdsAscending(contacts + [c])
    ensures ContactsCoverBranches(branches + [b], contacts + [c]) && OnePrimaryPerBranch(contacts + [c])
  {
    forall i | 0 <= i < |branches| ensures branches[i].id < b.id {
      assert i == |branches| - 1 || branches[i].id < branches[|branches| - 1].id;
    }
    forall i | 0 <= i < |contacts| ensures contacts[i].id < c.id {
      assert i == |contacts| - 1 || contacts[i].id < contacts[|contacts| - 1].id;
    }
    LinksAppend(contacts, c);
    BranchIdsAppend(branches, b);
    forall j | 0 <= j < |contacts| ensures contacts[j].branchId != b.id {
      assert contacts[j].branchId in BranchIds(branches);
    }
  }

  /**
   * Appending a contact of an existing branch keeps the rules, provided that
   * when it is primary no other contact of its branch still is.
   */
  lemma AppendContactKeepsRules(branches: seq<Branch>, contacts: seq<Contact>, c: Contact)
    requires ContactIdsAscending(contacts) && c.id == NextContactId(contacts) && c.branchId in BranchIds(branches)
    requires ContactsCoverBranches(branches, contacts) && OnePrimaryPerBranch(contacts)
    requires c.isPrimary ==> forall j :: 0 <= j < |contacts| && contacts[j].branchId == c.branchId ==> !contacts[j].isPrimary
    ensures ContactIdsAscending(contacts + [c]) && ContactsCoverBranches(branches, contacts + [c])
    ensures OnePrimaryPerBranch(contacts + [c])
  {
    forall i | 0 <= i < |contacts| ensures contacts[i].id < c.id {
      assert i == |contacts| - 1 || contacts[i].id < contacts[|contacts| - 1].id;
    }
    LinksAppend(contacts, c);
    var cs := contacts + [c];
    forall i, j | 0 <= i < j < |cs| && cs[i].branchId == cs[j].branchId
      ensures !(cs[i].isPrimary && cs[j].isPrimary)
    {
      assert cs[i] == contacts[i];
      if j < |contacts| {
        assert cs[j] == contacts[j];
      }
    }
  }

  /** add_contact's update (clear the branch's primaries when the newcomer is primary, then append) keeps the rules. */
  lemma AddContactKeepsRules(branches: seq<Branch>, contacts: seq<Contact>, c: Contact)
    requires ContactIdsAscending(contacts) && c.id == NextContactId(contacts) && c.branchId in BranchIds(branches)
    requires ContactsCoverBranches(branches, contacts) && OnePrimaryPerBranch(contacts)
    ensures var before := if c.isPrimary then ClearPrimary(contacts, c.branchId) else contacts;
            ContactIdsAscending(before + [c]) && ContactsCoverBranches(branches, before + [c]) &&
            OnePrimaryPerBranch(before + [c])
  {
    var before := if c.isPrimary then ClearPrimary(contacts, c.branchId) else contacts;
    assert SameLinks(contacts, before);
    SameLinksKeep(contacts, before);
    assert NextContactId(before) == NextContactId(contacts);
    AppendContactKeepsRules(branches, before, c);
  }

  lemma RemoveContactKeepsRules(branches: seq<Branch>, contacts: seq<Contact>, k: nat)
    requires k < |contacts| && ContactIdsAscending(contacts)
    requires ContactsCoverBranches(branches, contacts) && OnePrimaryPerBranch(contacts)
    requires exists j :: 0 <= j < |contacts| && j != k && contacts[j].branchId == contacts[k].branchId
    ensures var cs := contacts[..k] + contacts[k + 1..];
            ContactIdsAscending(cs) && ContactsCoverBranches(branches, cs) && OnePrimaryPerBranch(cs)
  {
    var cs := contacts[..k] + contacts[k + 1..];
    LinksRemove(contacts, k);
    assert forall i :: 0 <= i < |cs| ==> cs[i] == contacts[if i < k then i else i + 1];
  }
}
