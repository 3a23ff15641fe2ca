/**
 * The beneficiaries resource: ten random beneficiaries seeded at startup, the
 * list route (type and status filters, page slice, summary projection), and
 * create, read, partial update and delete of one beneficiary.
 */
module Beneficiaries {
  import opened Wrappers
  import opened Text
  import opened ErrorHandler
  import opened MockData
  import opened Tables
  import opened Query

  const SeedCount := 10

  /** Keys are the beneficiaries' own IDs; no route changes a status, so every one stays ACTIVE. */
  ghost predicate StoreInvariant(t: Table<Beneficiary>) {
    && t.Valid()
    && forall k :: k in t.entries ==> t.entries[k].beneficiaryId == k && t.entries[k].status == "ACTIVE"
  }

  /** The ten beneficiaries the seeding loop generates, in order. */
  function SeededBeneficiaries(now: Time, draws: seq<BeneficiaryDraws>): (r: seq<Beneficiary>)
    requires |draws| == SeedCount && forall i :: 0 <= i < |draws| ==> draws[i].InRange()
    ensures |r| == SeedCount
    ensures forall i :: 0 <= i < SeedCount ==> r[i] == GenerateBeneficiary(None, now, draws[i]) && r[i].status == "ACTIVE"
  {
    seq(SeedCount, i requires 0 <= i < SeedCount => GenerateBeneficiary(None, now, draws[i]))
  }

  /** After i steps of the seeding loop: every entry is one of the first i expected, and each of those is stored. */
  ghost predicate SeededUpTo(t: Table<Beneficiary>, i: nat, expected: seq<Beneficiary>)
    requires i <= |expected|
  {
    && StoreInvariant(t)
    && (i == 0 ==> |t.order| == 0) && (i > 0 ==> 1 <= |t.order| <= i)
    && (forall k :: k in t.entries ==> exists j :: 0 <= j < i && t.entries[k] == expected[j])
    && (forall j :: 0 <= j < i ==> expected[j].beneficiaryId in t.entries)
  }

  /** Storing the next expected beneficiary advances the seeding loop by one. */
  lemma SeedStep(t: Table<Beneficiary>, i: nat, expected: seq<Beneficiary>)
    requires i < |expected| && expected[i].status == "ACTIVE"
    requires SeededUpTo(t, i, expected)
    ensures SeededUpTo(t.Insert(expected[i].beneficiaryId, expected[i]), i + 1, expected)
  {
    var b := expected[i];
    var u := t.Insert(b.beneficiaryId, b);
    EntriesExpectedStep(t.entries, i, expected);
    InsertKeepsStoreInvariant(t, b);
    IdsStoredStep(t.entries, i, expected);
    assert (i + 1 == 0 ==> |u.order| == 0) && (i + 1 > 0 ==> 1 <= |u.order| <= i + 1);
  }

  lemma InsertKeepsStoreInvariant(t: Table<Beneficiary>, b: Beneficiary)
    requires StoreInvariant(t) && b.status == "ACTIVE"
    ensures StoreInvariant(t.Insert(b.beneficiaryId, b))
  {
  }

  lemma IdsStoredStep(entries: map<string, Beneficiary>, i: nat, expected: seq<Beneficiary>)
    requires i < |expected|
    requires forall j :: 0 <= j < i ==> expected[j].beneficiaryId in entries
    ensures forall j :: 0 <= j < i + 1 ==> expected[j].beneficiaryId in entries[expected[i].beneficiaryId := expected[i]]
  {
  }

  /** Writing the i-th expected beneficiary keeps every entry one of the expected ones. */
  lemma EntriesExpectedStep(entries: map<string, Beneficiary>, i: nat, expected: seq<Beneficiary>)
    requires i < |expected|
    requires forall k :: k in entries ==> exists j :: 0 <= j < i && entries[k] == expected[j]
    ensures var u := entries[expected[i].beneficiaryId := expected[i]];
      forall k :: k in u ==> exists j :: 0 <= j < i + 1 && u[k] == expected[j]
  {
    var u := entries[expected[i].beneficiaryId := expected[i]];
    forall k | k in u
      ensures exists j :: 0 <= j < i + 1 && u[k] == expected[j]
    {
      if k == expected[i].beneficiaryId {
        assert u[k] == expected[i];
      } else {
        var j :| 0 <= j < i && entries[k] == expected[j];
        assert u[k] == expected[j];
      }
    }
  }

  /** The seeding loop: ten generated beneficiaries under random IDs. */
  method SeedBeneficiaries(now: Time, draws: seq<BeneficiaryDraws>) returns (t: Table<Beneficiary>)
    requires |draws| == SeedCount && forall i :: 0 <= i < |draws| ==> draws[i].InRange()
    ensures StoreInvariant(t)
    ensures 1 <= |t.order| <= SeedCount
    ensures forall k :: k in t.entries ==> exists i :: 0 <= i < SeedCount && t.entries[k] == SeededBeneficiaries(now, draws)[i]
    ensures forall i :: 0 <= i < SeedCount ==> SeededBeneficiaries(now, draws)[i].beneficiaryId in t.entries
  {
    ghost var expected := SeededBeneficiaries(now, draws);
    t := EmptyTable();
    for i := 0 to SeedCount
      invariant SeededUpTo(t, i, expected)
    {
      var beneficiary := GenerateBeneficiary(None, now, draws[i]);
      assert beneficiary == expected[i];
      SeedStep(t, i, expected);
      t := t.Insert(beneficiary.beneficiaryId, beneficiary);
    }
  }

  /** The body of `POST /beneficiaries`; `None` is an absent field. */
  datatype BeneficiaryInput = BeneficiaryInput(
    beneficiaryType: Option<string>,
    name: Option<string>,
    nickname: Option<string>,
    accountNumber: Option<string>,
    routingNumber: Option<string>,
    bankName: Option<string>,
    bankAddress: Option<Address>,
    email: Option<string>,
    phone: Option<string>)

  /** The five required fields are all truthy. */
  predicate HasRequiredFields(input: BeneficiaryInput) {
    && Truthy(input.beneficiaryType) && Truthy(input.name) && Truthy(input.accountNumber)
    && Truthy(input.routingNumber) && Truthy(input.bankName)
  }

  /** The issues reported when any required field is missing: always all five. */
  const RequiredFieldIssues: seq<FieldIssue> := [
    FieldIssue("beneficiaryType", "Beneficiary type is required"),
    FieldIssue("name", "Name is required"),
    FieldIssue("accountNumber", "Account number is required"),
    FieldIssue("routingNumber", "Routing number is required"),
    FieldIssue("bankName", "Bank name is required")]

  /** The create route's validation. */
  function Validate(input: BeneficiaryInput): (r: Option<ErrorObject>)
    ensures r.None? <==> HasRequiredFields(input)
    ensures r.Some? ==> (r.value.statusCode == Some(400) && r.value.code == Some("VALIDATION_ERROR") &&
                         r.value.details == Some(RequiredFieldIssues))
  {
    if !HasRequiredFields(input) then
      Some(CreateError(400, "VALIDATION_ERROR", "Missing required fields", Some(RequiredFieldIssues)))
    else None
  }

  /** A generated beneficiary overwritten with the validated body. */
  function FromInput(input: BeneficiaryInput, generated: Beneficiary): (b: Beneficiary)
    requires HasRequiredFields(input)
    ensures b.beneficiaryId == generated.beneficiaryId && b.status == generated.status
    ensures b.createdAt == generated.createdAt && b.lastUsed == generated.lastUsed
    ensures b.beneficiaryType == input.beneficiaryType.value && b.name == input.name.value
    ensures b.accountNumber == input.accountNumber.value && b.routingNumber == input.routingNumber.value
    ensures b.bankName == input.bankName.value
    ensures b.nickname == (if Truthy(input.nickname) then input.nickname.value else input.name.value)
    ensures b.bankAddress == input.bankAddress.GetOr(generated.bankAddress)
    ensures b.email == (if Truthy(input.email) then input.email.value else generated.email)
    ensures b.phone == (if Truthy(input.phone) then input.phone.value else generated.phone)
  {
    generated.(
      beneficiaryType := input.beneficiaryType.value,
      name := input.name.value,
      nickname := if Truthy(input.nickname) then input.nickname.value else input.name.value,
      accountNumber := input.accountNumber.value,
      routingNumber := input.routingNumber.value,
      bankName := input.bankName.value,
      bankAddress := if input.bankAddress.Some? then input.bankAddress.value else generated.bankAddress,
      email := if Truthy(input.email) then input.email.value else generated.email,
      phone := if Truthy(input.phone) then input.phone.value else generated.phone)
  }

  /** The update route's changes: each truthy field replaces the stored one. */
  function Patch(b: Beneficiary, nickname: Option<string>, email: Option<string>, phone: Option<string>): (p: Beneficiary)
    ensures p.nickname == (if Truthy(nickname) then nickname.value else b.nickname)
    ensures p.email == (if Truthy(email) then email.value else b.email)
    ensures p.phone == (if Truthy(phone) then phone.value else b.phone)
    ensures p.(nickname := b.nickname, email := b.email, phone := b.phone) == b
  {
    var b1 := if Truthy(nickname) then b.(nickname := nickname.value) else b;
    var b2 := if Truthy(email) then b1.(email := email.value) else b1;
    if Truthy(phone) then b2.(phone := phone.value) else b2
  }

  /** Repeating an update changes nothing more. */
  lemma PatchIdempotent(b: Beneficiary, nickname: Option<string>, email: Option<string>, phone: Option<string>)
    ensures Patch(Patch(b, nickname, email, phone), nickname, email, phone) == Patch(b, nickname, email, phone)
  {
  }

  /** An update with no truthy field leaves the beneficiary as it was. */
  lemma EmptyPatchIsIdentity(b: Beneficiary, nickname: Option<string>, email: Option<string>, phone: Option<string>)
    requires !Truthy(nickname) && !Truthy(email) && !Truthy(phone)
    ensures Patch(b, nickname, email, phone) == b
  {
  }

  /** The fields the list route projects out of a beneficiary. */
  datatype BeneficiarySummary = BeneficiarySummary(
    beneficiaryId: string,
    beneficiaryType: string,
    name: string,
    nickname: string,
    accountNumber: string,
    bankName: string,
    status: string,
    createdAt: Time)

  /** The fields the list route's `map` keeps of one beneficiary. */
  function Summary(b: Beneficiary): BeneficiarySummary {
    BeneficiarySummary(b.beneficiaryId, b.beneficiaryType, b.name, b.nickname, b.accountNumber, b.bankName, b.status, b.createdAt)
  }

  datatype BeneficiaryList = BeneficiaryList(beneficiaries: seq<BeneficiarySummary>, pagination: Pagination)

  /** The list route's `beneficiaryType` filter callback. */
  function OfType(beneficiaryType: Option<string>): Beneficiary -> bool {
    (b: Beneficiary) => b.beneficiaryType == beneficiaryType.GetOr("")
  }

  /** The list route's `status` filter callback. */
  function WithStatus(status: Option<string>): Beneficiary -> bool {
    (b: Beneficiary) => b.status == status.GetOr("")
  }

  /** The list route's two optional filters, in order. */
  function Matching(s: seq<Beneficiary>, beneficiaryType: Option<string>, status: Option<string>): seq<Beneficiary> {
    Step(Step(s, Truthy(beneficiaryType), OfType(beneficiaryType)), Truthy(status), WithStatus(status))
  }

  /** The two filters keep exactly the beneficiaries meeting both. */
  lemma MatchingMembership(s: seq<Beneficiary>, beneficiaryType: Option<string>, status: Option<string>, b: Beneficiary)
    ensures b in Matching(s, beneficiaryType, status) <==>
      b in s && (Truthy(beneficiaryType) ==> b.beneficiaryType == beneficiaryType.value)
             && (Truthy(status) ==> b.status == status.value)
  {
  }

  /** The predicate the two filters of the list route amount to. */
  function Requested(beneficiaryType: Option<string>, status: Option<string>): Beneficiary -> bool {
    And(When(Truthy(beneficiaryType), OfType(beneficiaryType)), When(Truthy(status), WithStatus(status)))
  }

  /** A summary of some stored beneficiary that passes both supplied filters. */
  predicate SummarisesMatch(entries: map<string, Beneficiary>, s: BeneficiarySummary,
                            beneficiaryType: Option<string>, status: Option<string>) {
    exists k :: k in entries && s == Summary(entries[k])
      && (Truthy(beneficiaryType) ==> entries[k].beneficiaryType == beneficiaryType.value)
      && (Truthy(status) ==> entries[k].status == status.value)
  }

  /** The two filters are one filter by `Requested`. */
  lemma MatchingIsOneFilter(s: seq<Beneficiary>, beneficiaryType: Option<string>, status: Option<string>)
    ensures Matching(s, beneficiaryType, status) == Filter(s, Requested(beneficiaryType, status))
  {
    var typed := Step(s, Truthy(beneficiaryType), OfType(beneficiaryType));
    StepIsFilter(s, Truthy(beneficiaryType), OfType(beneficiaryType));
    StepIsFilter(typed, Truthy(status), WithStatus(status));
    FilterFuse(s, When(Truthy(beneficiaryType), OfType(beneficiaryType)), When(Truthy(status), WithStatus(status)));
  }

  /** Every summary on a page of the list route is that of a stored beneficiary passing both filters. */
  lemma ListSound(t: Table<Beneficiary>, beneficiaryType: Option<string>, status: Option<string>, req: PageRequest)
    requires t.Valid() && req.InRange()
    ensures var page := Paginate(Matching(t.Values(), beneficiaryType, status), req.Page(), req.Limit());
      forall s :: s in Map(page, Summary) ==> SummarisesMatch(t.entries, s, beneficiaryType, status)
  {
    var values := t.Values();
    var matching := Matching(values, beneficiaryType, status);
    var page := Paginate(matching, req.Page(), req.Limit());
    var summaries := Map(page, Summary);
    forall s | s in summaries ensures SummarisesMatch(t.entries, s, beneficiaryType, status) {
      var i :| 0 <= i < |summaries| && summaries[i] == s;
      PageWithin(matching, req.Page(), req.Limit(), page[i]);
      MatchSummarised(t, beneficiaryType, status, page[i]);
    }
  }

  /** A beneficiary the filters keep is summarised as a stored match. */
  lemma MatchSummarised(t: Table<Beneficiary>, beneficiaryType: Option<string>, status: Option<string>, b: Beneficiary)
    requires t.Valid() && b in Matching(t.Values(), beneficiaryType, status)
    ensures SummarisesMatch(t.entries, Summary(b), beneficiaryType, status)
  {
    var values := t.Values();
    MatchingMembership(values, beneficiaryType, status, b);
    var j :| 0 <= j < |values| && values[j] == b;
    assert t.entries[t.order[j]] == b;
  }

  function NotFound(beneficiaryId: string): ErrorObject {
    CreateError(404, "BENEFICIARY_NOT_FOUND", "Beneficiary " + beneficiaryId + " not found", None)
  }

  /** The in-memory beneficiaries store. */
  class BeneficiaryStore {
    var table: Table<Beneficiary>

    ghost predicate Valid()
      reads this
    {
      StoreInvariant(table)
    }

    /** Startup seeding of ten random beneficiaries. */
    constructor (now: Time, draws: seq<BeneficiaryDraws>)
      requires |draws| == SeedCount && forall i :: 0 <= i < |draws| ==> draws[i].InRange()
      ensures Valid() && 1 <= |table.order| <= SeedCount
      ensures forall k :: k in table.entries ==>
        exists i :: 0 <= i < SeedCount && table.entries[k] == SeededBeneficiaries(now, draws)[i]
      ensures forall i :: 0 <= i < SeedCount ==> SeededBeneficiaries(now, draws)[i].beneficiaryId in table.entries
    {
      var t := SeedBeneficiaries(now, draws);
      table := t;
    }

    /** `GET /beneficiaries`. */
    function List(beneficiaryType: Option<string>, status: Option<string>, req: PageRequest): (r: BeneficiaryList)
      reads this
      requires Valid() && req.InRange()
      ensures |r.beneficiaries| <= req.Limit()
      ensures forall s :: s in r.beneficiaries ==> SummarisesMatch(table.entries, s, beneficiaryType, status)
      ensures r.pagination == GeneratePagination(req.Page(), req.Limit(),
                                                 Count(table.Values(), Requested(beneficiaryType, status)))
      ensures r.beneficiaries == Map(Paginate(Matching(table.Values(), beneficiaryType, status), req.Page(), req.Limit()), Summary)
    {
      var matching := Matching(table.Values(), beneficiaryType, status);
      ListSound(table, beneficiaryType, status, req);
      MatchingIsOneFilter(table.Values(), beneficiaryType, status);
      FilterCount(table.Values(), Requested(beneficiaryType, status));
      BeneficiaryList(Map(Paginate(matching, req.Page(), req.Limit()), Summary),
                      GeneratePagination(req.Page(), req.Limit(), |matching|))
    }

    /** `GET /beneficiaries/:beneficiaryId`. */
    function Get(beneficiaryId: string): (r: Result<Beneficiary>)
      reads this
      requires Valid()
      ensures beneficiaryId !in table.entries ==> r.FailsWith(404, "BENEFICIARY_NOT_FOUND")
      ensures beneficiaryId in table.entries ==> r == Ok(table.entries[beneficiaryId])
      ensures r.Ok? ==> r.value.beneficiaryId == beneficiaryId && r.value.status == "ACTIVE"
    {
      if beneficiaryId in table.entries then Ok(table.entries[beneficiaryId])
      else Err(NotFound(beneficiaryId))
    }

    /** `POST /beneficiaries`: validate, generate, overwrite with the body, store. */
    method Create(input: BeneficiaryInput, now: Time, d: BeneficiaryDraws) returns (r: Result<Beneficiary>)
      requires Valid() && d.InRange()
      modifies this
      ensures Valid()
      ensures r.Err? <==> !HasRequiredFields(input)
      ensures r.Err? ==> r.error == Validate(input).value && table == old(table)
      ensures r.Ok? ==>
        && r.value == FromInput(input, GenerateBeneficiary(None, now, d))
        && table == old(table).Insert(r.value.beneficiaryId, r.value)
    {
      var invalid := Validate(input);
      if invalid.Some? {
        return Err(invalid.value);
      }
      var beneficiary := FromInput(input, GenerateBeneficiary(None, now, d));
      table := table.Insert(beneficiary.beneficiaryId, beneficiary);
      r := Ok(beneficiary);
    }

    /** `PUT /beneficiaries/:beneficiaryId`: only nickname, email and phone can change. */
    method Update(beneficiaryId: string, nickname: Option<string>, email: Option<string>, phone: Option<string>)
      returns (r: Result<Beneficiary>)
      requires Valid()
      modifies this
      ensures Valid()
      ensures r.Err? <==> beneficiaryId !in old(table.entries)
      ensures r.Err? ==> r.error == NotFound(beneficiaryId) && table == old(table)
      ensures r.Ok? ==>
        && r.value == Patch(old(table.entries[beneficiaryId]), nickname, email, phone)
        && table == old(table).Insert(beneficiaryId, r.value)
    {
      if beneficiaryId !in table.entries {
        return Err(NotFound(beneficiaryId));
      }
      var beneficiary := Patch(table.entries[beneficiaryId], nickname, email, phone);
      table := table.Insert(beneficiaryId, beneficiary);
      r := Ok(beneficiary);
    }

    /**
     * `DELETE /beneficiaries/:beneficiaryId`; `hasPendingPayments` is the
     * route's random draw (`Math.random() > 0.8`).
     */
    method Delete(beneficiaryId: string, hasPendingPayments: bool) returns (r: Result<()>)
      requires Valid()
      modifies this
      ensures Valid()
      ensures beneficiaryId !in old(table.entries) ==> r.Err? && r.error == NotFound(beneficiaryId)
      ensures beneficiaryId in old(table.entries) && hasPendingPayments ==>
        r.FailsWith(422, "BENEFICIARY_HAS_PENDING_PAYMENTS")
      ensures r.Ok? <==> beneficiaryId in old(table.entries) && !hasPendingPayments
      ensures r.Err? ==> table == old(table)
      ensures r.Ok? ==> table == old(table).Remove(beneficiaryId) && beneficiaryId !in table.entries
    {
      if beneficiaryId !in table.entries {
        return Err(NotFound(beneficiaryId));
      }
      if hasPendingPayments {
        return Err(CreateError(422, "BENEFICIARY_HAS_PENDING_PAYMENTS", "Cannot delete beneficiary with pending payments", None));
      }
      table := table.Remove(beneficiaryId);
      r := Ok(());
    }
  }

  /** No stored beneficiary is ever listed under a status other than ACTIVE. */
  lemma OnlyActiveListed(store: BeneficiaryStore, beneficiaryType: Option<string>, status: Option<string>, req: PageRequest)
    requires store.Valid() && req.InRange() && Truthy(status) && status.value != "ACTIVE"
    ensures store.List(beneficiaryType, status, req).beneficiaries == []
    ensures store.List(beneficiaryType, status, req).pagination.totalRecords == 0
  {
    var values := store.table.Values();
    var typed := Step(values, Truthy(beneficiaryType), OfType(beneficiaryType));
    forall b | b in typed ensures !WithStatus(status)(b) {
      assert b in values;
      var i :| 0 <= i < |values| && values[i] == b;
      assert store.table.entries[store.table.order[i]] == b;
    }
    FilterKeepsNone(typed, WithStatus(status));
  }

  /** After a successful delete the beneficiary is gone and the others are listed as before, in order. */
  lemma DeleteDropsOnlyThatEntry(t: Table<Beneficiary>, beneficiaryId: string, i: nat)
    requires StoreInvariant(t) && i < |t.order| && t.order[i] == beneficiaryId
    ensures StoreInvariant(t.Remove(beneficiaryId))
    ensures t.Remove(beneficiaryId).Values() == t.Values()[..i] + t.Values()[i + 1..]
  {
    RemoveValues(t, beneficiaryId, i);
  }
}
