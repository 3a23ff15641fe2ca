/**
 * The transactions resource: a store seeded at startup with three fixed
 * transactions and seventeen random ones, the list route (six optional filters,
 * a descending sort by transaction date, a page slice) and lookup by ID.
 */
module Transactions {
  import opened Wrappers
  import opened Text
  import opened ErrorHandler
  import opened MockData
  import opened Tables
  import opened Query

  /** The fixed seed: transaction IDs and, index for index, their accounts. */
  const FixedIds: seq<string> := ["txn-20260109-001", "txn-20260109-002", "txn-20260109-003"]
  const FixedAccounts: seq<string> := ["acc-123456789", "acc-987654321", "acc-111222333"]

  const RandomSeedCount := 17

  /**
   * The filter parameters of `GET /transactions`; `None` is an absent or empty
   * parameter. Dates arrive as parsed times and amounts in pence.
   */
  datatype TransactionQuery = TransactionQuery(
    accountId: Option<string>,
    startDate: Option<Time>,
    endDate: Option<Time>,
    transactionType: Option<string>,
    minAmount: Option<Pence>,
    maxAmount: Option<Pence>)

  /** A transaction meets every filter the query supplies. */
  predicate Matches(t: Transaction, q: TransactionQuery) {
    && (Truthy(q.accountId) ==> t.accountId == q.accountId.value)
    && (Truthy(q.transactionType) ==> t.transactionType == q.transactionType.value)
    && (q.startDate.Some? ==> t.transactionDate >= q.startDate.value)
    && (q.endDate.Some? ==> t.transactionDate <= q.endDate.value)
    && (q.minAmount.Some? ==> Abs(t.amount) >= q.minAmount.value)
    && (q.maxAmount.Some? ==> Abs(t.amount) <= q.maxAmount.value)
  }

  function MatchesQuery(q: TransactionQuery): Transaction -> bool {
    t => Matches(t, q)
  }

  // The six filters of the route, each applied only when its parameter is given.
  function ByAccount(q: TransactionQuery): Transaction -> bool { (t: Transaction) => t.accountId == q.accountId.GetOr("") }
  function ByType(q: TransactionQuery): Transaction -> bool { (t: Transaction) => t.transactionType == q.transactionType.GetOr("") }
  function NotBefore(q: TransactionQuery): Transaction -> bool { (t: Transaction) => q.startDate.Some? ==> t.transactionDate >= q.startDate.value }
  function NotAfter(q: TransactionQuery): Transaction -> bool { (t: Transaction) => q.endDate.Some? ==> t.transactionDate <= q.endDate.value }
  function AtLeast(q: TransactionQuery): Transaction -> bool { (t: Transaction) => q.minAmount.Some? ==> Abs(t.amount) >= q.minAmount.value }
  function AtMost(q: TransactionQuery): Transaction -> bool { (t: Transaction) => q.maxAmount.Some? ==> Abs(t.amount) <= q.maxAmount.value }

  /** The route's filter chain, in the route's order. */
  function Chain(s: seq<Transaction>, q: TransactionQuery): (r: seq<Transaction>)
    ensures |r| <= |s|
    ensures forall t :: t in r <==> t in s && Matches(t, q)
  {
    var s1 := Step(s, Truthy(q.accountId), ByAccount(q));
    var s2 := Step(s1, Truthy(q.transactionType), ByType(q));
    var s3 := Step(s2, q.startDate.Some?, NotBefore(q));
    var s4 := Step(s3, q.endDate.Some?, NotAfter(q));
    var s5 := Step(s4, q.minAmount.Some?, AtLeast(q));
    StepMembers(s, Truthy(q.accountId), ByAccount(q));
    StepMembers(s1, Truthy(q.transactionType), ByType(q));
    StepMembers(s2, q.startDate.Some?, NotBefore(q));
    StepMembers(s3, q.endDate.Some?, NotAfter(q));
    StepMembers(s4, q.minAmount.Some?, AtLeast(q));
    StepMembers(s5, q.maxAmount.Some?, AtMost(q));
    Step(s5, q.maxAmount.Some?, AtMost(q))
  }

  /** The same six filters in the opposite order. */
  function ReversedChain(s: seq<Transaction>, q: TransactionQuery): seq<Transaction> {
    var s1 := Step(s, q.maxAmount.Some?, AtMost(q));
    var s2 := Step(s1, q.minAmount.Some?, AtLeast(q));
    var s3 := Step(s2, q.endDate.Some?, NotAfter(q));
    var s4 := Step(s3, q.startDate.Some?, NotBefore(q));
    var s5 := Step(s4, Truthy(q.transactionType), ByType(q));
    Step(s5, Truthy(q.accountId), ByAccount(q))
  }

  /** The six optional steps as one predicate, in the route's order. */
  function AllSteps(q: TransactionQuery): Transaction -> bool {
    var w1, w2, w3 := When(Truthy(q.accountId), ByAccount(q)), When(Truthy(q.transactionType), ByType(q)), When(q.startDate.Some?, NotBefore(q));
    var w4, w5, w6 := When(q.endDate.Some?, NotAfter(q)), When(q.minAmount.Some?, AtLeast(q)), When(q.maxAmount.Some?, AtMost(q));
    And(And(And(And(And(w1, w2), w3), w4), w5), w6)
  }

  /** The chain is one filter by all six steps. */
  lemma ChainFuses(s: seq<Transaction>, q: TransactionQuery)
    ensures Chain(s, q) == Filter(s, AllSteps(q))
  {
    var w1, w2, w3 := When(Truthy(q.accountId), ByAccount(q)), When(Truthy(q.transactionType), ByType(q)), When(q.startDate.Some?, NotBefore(q));
    var w4, w5, w6 := When(q.endDate.Some?, NotAfter(q)), When(q.minAmount.Some?, AtLeast(q)), When(q.maxAmount.Some?, AtMost(q));
    var s1 := Step(s, Truthy(q.accountId), ByAccount(q));
    StepIsFilter(s, Truthy(q.accountId), ByAccount(q));
    var s2 := Step(s1, Truthy(q.transactionType), ByType(q));
    StepIsFilter(s1, Truthy(q.transactionType), ByType(q));
    FilterFuse(s, w1, w2);
    var s3 := Step(s2, q.startDate.Some?, NotBefore(q));
    StepIsFilter(s2, q.startDate.Some?, NotBefore(q));
    FilterFuse(s, And(w1, w2), w3);
    var s4 := Step(s3, q.endDate.Some?, NotAfter(q));
    StepIsFilter(s3, q.endDate.Some?, NotAfter(q));
    FilterFuse(s, And(And(w1, w2), w3), w4);
    var s5 := Step(s4, q.minAmount.Some?, AtLeast(q));
    StepIsFilter(s4, q.minAmount.Some?, AtLeast(q));
    FilterFuse(s, And(And(And(w1, w2), w3), w4), w5);
    StepIsFilter(s5, q.maxAmount.Some?, AtMost(q));
    FilterFuse(s, And(And(And(And(w1, w2), w3), w4), w5), w6);
  }

  lemma AllStepsMatch(q: TransactionQuery, t: Transaction)
    ensures AllSteps(q)(t) == Matches(t, q)
  {
  }

  /** The chain keeps exactly the transactions that meet every supplied filter, in store order. */
  lemma ChainIsOneFilter(s: seq<Transaction>, q: TransactionQuery)
    ensures Chain(s, q) == Filter(s, MatchesQuery(q))
  {
    ChainFuses(s, q);
    forall t | t in s ensures AllSteps(q)(t) == MatchesQuery(q)(t) {
      AllStepsMatch(q, t);
    }
    FilterExtensional(s, AllSteps(q), MatchesQuery(q));
  }

  /** The six optional steps as one predicate, in the opposite order. */
  function AllStepsReversed(q: TransactionQuery): Transaction -> bool {
    var w1, w2, w3 := When(q.maxAmount.Some?, AtMost(q)), When(q.minAmount.Some?, AtLeast(q)), When(q.endDate.Some?, NotAfter(q));
    var w4, w5, w6 := When(q.startDate.Some?, NotBefore(q)), When(Truthy(q.transactionType), ByType(q)), When(Truthy(q.accountId), ByAccount(q));
    And(And(And(And(And(w1, w2), w3), w4), w5), w6)
  }

  lemma ReversedChainFuses(s: seq<Transaction>, q: TransactionQuery)
    ensures ReversedChain(s, q) == Filter(s, AllStepsReversed(q))
  {
    var w1, w2, w3 := When(q.maxAmount.Some?, AtMost(q)), When(q.minAmount.Some?, AtLeast(q)), When(q.endDate.Some?, NotAfter(q));
    var w4, w5, w6 := When(q.startDate.Some?, NotBefore(q)), When(Truthy(q.transactionType), ByType(q)), When(Truthy(q.accountId), ByAccount(q));
    var s1 := Step(s, q.maxAmount.Some?, AtMost(q));
    StepIsFilter(s, q.maxAmount.Some?, AtMost(q));
    var s2 := Step(s1, q.minAmount.Some?, AtLeast(q));
    StepIsFilter(s1, q.minAmount.Some?, AtLeast(q));
    FilterFuse(s, w1, w2);
    var s3 := Step(s2, q.endDate.Some?, NotAfter(q));
    StepIsFilter(s2, q.endDate.Some?, NotAfter(q));
    FilterFuse(s, And(w1, w2), w3);
    var s4 := Step(s3, q.startDate.Some?, NotBefore(q));
    StepIsFilter(s3, q.startDate.Some?, NotBefore(q));
    FilterFuse(s, And(And(w1, w2), w3), w4);
    var s5 := Step(s4, Truthy(q.transactionType), ByType(q));
    StepIsFilter(s4, Truthy(q.transactionType), ByType(q));
    FilterFuse(s, And(And(And(w1, w2), w3), w4), w5);
    StepIsFilter(s5, Truthy(q.accountId), ByAccount(q));
    FilterFuse(s, And(And(And(And(w1, w2), w3), w4), w5), w6);
  }

  /** The filters are independent: applying them in the opposite order gives the same list. */
  lemma ChainOrderIndependent(s: seq<Transaction>, q: TransactionQuery)
    ensures ReversedChain(s, q) == Chain(s, q)
  {
    ChainIsOneFilter(s, q);
    ReversedChainFuses(s, q);
    forall t | t in s ensures AllStepsReversed(q)(t) == MatchesQuery(q)(t) {
      AllStepsMatch(q, t);
    }
    FilterExtensional(s, AllStepsReversed(q), MatchesQuery(q));
  }

  datatype TransactionList = TransactionList(transactions: seq<Transaction>, pagination: Pagination)

  /** What `GET /transactions` returns for the listed store contents `s`. */
  function ListOf(s: seq<Transaction>, q: TransactionQuery, req: PageRequest): (r: TransactionList)
    requires req.InRange()
    ensures var matching := Filter(s, MatchesQuery(q));
      r.pagination == GeneratePagination(req.Page(), req.Limit(), |matching|)
  {
    var matching := Filter(s, MatchesQuery(q));
    TransactionList(Paginate(SortDesc(matching, TransactionDate), req.Page(), req.Limit()),
                    GeneratePagination(req.Page(), req.Limit(), |matching|))
  }

  /** Every stored transaction meeting the query is in the sorted list the page is cut from. */
  lemma ListComplete(s: seq<Transaction>, q: TransactionQuery, t: Transaction)
    requires t in s && Matches(t, q)
    ensures t in SortDesc(Filter(s, MatchesQuery(q)), TransactionDate)
  {
    var matching := Filter(s, MatchesQuery(q));
    SortDescPermutes(matching, TransactionDate);
    assert t in multiset(matching);
  }

  /** Every listed transaction was stored and meets every supplied filter; the page is sorted and bounded. */
  lemma ListSound(s: seq<Transaction>, q: TransactionQuery, req: PageRequest)
    requires req.InRange()
    ensures var r := ListOf(s, q, req);
      && |r.transactions| <= req.Limit()
      && SortedDesc(r.transactions, TransactionDate)
      && forall t :: t in r.transactions ==> t in s && Matches(t, q)
  {
    var matching := Filter(s, MatchesQuery(q));
    var sorted := SortDesc(matching, TransactionDate);
    SortDescSorted(matching, TransactionDate);
    SortDescPermutes(matching, TransactionDate);
    PageOfSorted(sorted, TransactionDate, req.Page(), req.Limit());
    forall t | t in sorted ensures t in matching {
      assert t in multiset(sorted);
    }
  }

  /** Keys are the transactions' own IDs and every entry is a generated transaction. */
  ghost predicate StoreInvariant(t: Table<Transaction>) {
    && t.Valid()
    && forall k :: k in t.entries ==> t.entries[k].transactionId == k && WellFormedTransaction(t.entries[k])
  }

  /** The three fixed transactions as the first seeding loop generates them. */
  function FixedSeed(now: Time, fixedDraws: seq<TransactionDraws>): (r: seq<Transaction>)
    requires |fixedDraws| == |FixedIds| && forall i :: 0 <= i < |fixedDraws| ==> fixedDraws[i].InRange()
    ensures |r| == |FixedIds|
    ensures forall i :: 0 <= i < |FixedIds| ==> r[i] == GenerateTransaction(FixedAccounts[i], Some(FixedIds[i]), now, fixedDraws[i])
  {
    seq(|FixedIds|, i requires 0 <= i < |FixedIds| => GenerateTransaction(FixedAccounts[i], Some(FixedIds[i]), now, fixedDraws[i]))
  }

  /** The fixed transactions `expected` are stored, first and in order. */
  ghost predicate HoldsFixedSeed(t: Table<Transaction>, expected: seq<Transaction>)
    requires |expected| == |FixedIds|
  {
    && |FixedIds| <= |t.order|
    && t.order[..|FixedIds|] == FixedIds
    && forall i :: 0 <= i < |FixedIds| ==> FixedIds[i] in t.entries && t.entries[FixedIds[i]] == expected[i]
  }

  /** The fixed IDs differ in their last character. */
  lemma FixedIdsDistinct()
    ensures Distinct(FixedIds)
  {
    assert FixedIds[0][15] == '1' && FixedIds[1][15] == '2' && FixedIds[2][15] == '3';
  }

  /** Writing a key other than a fixed ID keeps the fixed seed. */
  lemma InsertKeepsFixedSeed(t: Table<Transaction>, k: string, v: Transaction, expected: seq<Transaction>)
    requires |expected| == |FixedIds|
    requires t.Valid() && HoldsFixedSeed(t, expected) && k !in FixedIds
    ensures HoldsFixedSeed(t.Insert(k, v), expected)
  {
    var u := t.Insert(k, v);
    assert u.order[..|FixedIds|] == t.order[..|FixedIds|];
  }

  /** The first i fixed transactions are stored, in order. */
  ghost predicate FixedUpTo(t: Table<Transaction>, i: nat, now: Time, fixedDraws: seq<TransactionDraws>)
    requires i <= |FixedIds| && |fixedDraws| == |FixedIds| && forall j :: 0 <= j < |fixedDraws| ==> fixedDraws[j].InRange()
  {
    && StoreInvariant(t) && t.order == FixedIds[..i]
    && forall j :: 0 <= j < i ==>
         FixedIds[j] in t.entries &&
         t.entries[FixedIds[j]] == GenerateTransaction(FixedAccounts[j], Some(FixedIds[j]), now, fixedDraws[j])
  }

  lemma FixedStep(t: Table<Transaction>, i: nat, now: Time, fixedDraws: seq<TransactionDraws>, txn: Transaction)
    requires i < |FixedIds| && |fixedDraws| == |FixedIds| && forall j :: 0 <= j < |fixedDraws| ==> fixedDraws[j].InRange()
    requires FixedUpTo(t, i, now, fixedDraws)
    requires txn == GenerateTransaction(FixedAccounts[i], Some(FixedIds[i]), now, fixedDraws[i])
    ensures txn.transactionId == FixedIds[i]
    ensures FixedUpTo(t.Insert(txn.transactionId, txn), i + 1, now, fixedDraws)
  {
    FixedIdsDistinct();
    assert Truthy(Some(FixedIds[i]));
    assert FixedIds[i] !in FixedIds[..i];
    assert FixedIds[..i + 1] == FixedIds[..i] + [FixedIds[i]];
  }

  /** The first seeding loop: the three fixed transactions, written in order. */
  method SeedFixed(now: Time, fixedDraws: seq<TransactionDraws>) returns (t: Table<Transaction>)
    requires |fixedDraws| == |FixedIds| && forall i :: 0 <= i < |fixedDraws| ==> fixedDraws[i].InRange()
    ensures StoreInvariant(t) && HoldsFixedSeed(t, FixedSeed(now, fixedDraws)) && |t.order| == |FixedIds|
  {
    t := EmptyTable();
    for i := 0 to |FixedIds|
      invariant FixedUpTo(t, i, now, fixedDraws)
    {
      var txn := GenerateTransaction(FixedAccounts[i], Some(FixedIds[i]), now, fixedDraws[i]);
      FixedStep(t, i, now, fixedDraws, txn);
      t := t.Insert(txn.transactionId, txn);
    }
    assert FixedIds[..|FixedIds|] == FixedIds;
  }

  /** The first i random IDs are keys of the store. */
  ghost predicate IdsStored(t: Table<Transaction>, ids: seq<string>, i: nat)
    requires i <= |ids|
  {
    forall j :: 0 <= j < i ==> ids[j] in t.entries
  }

  /** Writing the i-th random ID keeps the earlier ones and adds it. */
  lemma IdsStep(t: Table<Transaction>, ids: seq<string>, i: nat, txn: Transaction)
    requires t.Valid() && i < |ids| && IdsStored(t, ids, i) && txn.transactionId == ids[i]
    ensures IdsStored(t.Insert(txn.transactionId, txn), ids, i + 1)
  {
    var u := t.Insert(txn.transactionId, txn);
    forall j | 0 <= j < i + 1 ensures ids[j] in u.entries {
      if j < i {
        assert ids[j] in t.entries;
      }
    }
  }

  /** One random transaction written over the store keeps the invariant and the fixed seed. */
  lemma RandomKeepsInvariant(t: Table<Transaction>, t0: Table<Transaction>, expected: seq<Transaction>, txn: Transaction)
    requires |expected| == |FixedIds|
    requires StoreInvariant(t) && HoldsFixedSeed(t, expected)
    requires forall k :: k in t.entries && k !in t0.entries ==> t.entries[k].accountId in RandomAccounts
    requires WellFormedTransaction(txn) && |txn.transactionId| == 17 && txn.accountId in RandomAccounts
    ensures StoreInvariant(t.Insert(txn.transactionId, txn)) && HoldsFixedSeed(t.Insert(txn.transactionId, txn), expected)
    ensures var u := t.Insert(txn.transactionId, txn);
      forall k :: k in u.entries && k !in t0.entries ==> u.entries[k].accountId in RandomAccounts
  {
    InsertKeepsStoreInvariant(t, txn);
    assert forall j :: 0 <= j < |FixedIds| ==> |FixedIds[j]| == 16;
    InsertKeepsFixedSeed(t, txn.transactionId, txn, expected);
    InsertKeepsRandomAccounts(t, t0, txn);
  }

  /** Writing a well-formed transaction under its own ID keeps the store invariant. */
  lemma InsertKeepsStoreInvariant(t: Table<Transaction>, txn: Transaction)
    requires StoreInvariant(t) && WellFormedTransaction(txn)
    ensures StoreInvariant(t.Insert(txn.transactionId, txn))
  {
  }

  /** Writing a transaction of a random account keeps every new entry's account random. */
  lemma InsertKeepsRandomAccounts(t: Table<Transaction>, t0: Table<Transaction>, txn: Transaction)
    requires t.Valid()
    requires forall k :: k in t.entries && k !in t0.entries ==> t.entries[k].accountId in RandomAccounts
    requires txn.accountId in RandomAccounts
    ensures var u := t.Insert(txn.transactionId, txn);
      forall k :: k in u.entries && k !in t0.entries ==> u.entries[k].accountId in RandomAccounts
  {
  }

  /** The i-th random transaction the second seeding loop generates. */
  function RandomTxn(accountDraws: seq<nat>, randomDraws: seq<TransactionDraws>, now: Time, i: nat): Transaction
    requires i < |accountDraws| && i < |randomDraws| && accountDraws[i] < |RandomAccounts| && randomDraws[i].InRange()
  {
    GenerateTransaction(RandomAccounts[accountDraws[i]], None, now, randomDraws[i])
  }

  /** The ID of the i-th random transaction the second seeding loop generates. */
  function RandomId(accountDraws: seq<nat>, randomDraws: seq<TransactionDraws>, now: Time, i: nat): string
    requires i < |accountDraws| && i < |randomDraws| && accountDraws[i] < |RandomAccounts| && randomDraws[i].InRange()
  {
    RandomTxn(accountDraws, randomDraws, now, i).transactionId
  }

  /** The seventeen random transactions, in generation order. */
  function RandomTxns(accountDraws: seq<nat>, randomDraws: seq<TransactionDraws>, now: Time): (r: seq<Transaction>)
    requires |accountDraws| == RandomSeedCount && forall i :: 0 <= i < |accountDraws| ==> accountDraws[i] < 5
    requires |randomDraws| == RandomSeedCount && forall i :: 0 <= i < |randomDraws| ==> randomDraws[i].InRange()
    ensures |r| == RandomSeedCount
    ensures forall i :: 0 <= i < RandomSeedCount ==> r[i] == RandomTxn(accountDraws, randomDraws, now, i)
  {
    seq(RandomSeedCount, i requires 0 <= i < RandomSeedCount => RandomTxn(accountDraws, randomDraws, now, i))
  }

  /** Every entry not in `t0` is one of the first `i` generated transactions. */
  ghost predicate NewEntriesGenerated(t: Table<Transaction>, t0: Table<Transaction>, txns: seq<Transaction>, i: nat)
    requires i <= |txns|
  {
    forall k :: k in t.entries && k !in t0.entries ==> exists j :: 0 <= j < i && t.entries[k] == txns[j]
  }

  /** Writing the i-th generated transaction keeps every new entry a generated one. */
  lemma NewEntriesStep(t: Table<Transaction>, t0: Table<Transaction>, txns: seq<Transaction>, i: nat)
    requires t.Valid() && i < |txns| && NewEntriesGenerated(t, t0, txns, i)
    ensures NewEntriesGenerated(t.Insert(txns[i].transactionId, txns[i]), t0, txns, i + 1)
  {
    var u := t.Insert(txns[i].transactionId, txns[i]);
    forall k | k in u.entries && k !in t0.entries
      ensures exists j :: 0 <= j < i + 1 && u.entries[k] == txns[j]
    {
      if k == txns[i].transactionId {
        assert u.entries[k] == txns[i];
      } else {
        var j :| 0 <= j < i && t.entries[k] == txns[j];
        assert u.entries[k] == txns[j];
      }
    }
  }

  /** The IDs of the seventeen random transactions, in generation order. */
  function RandomIds(accountDraws: seq<nat>, randomDraws: seq<TransactionDraws>, now: Time): (r: seq<string>)
    requires |accountDraws| == RandomSeedCount && forall i :: 0 <= i < |accountDraws| ==> accountDraws[i] < 5
    requires |randomDraws| == RandomSeedCount && forall i :: 0 <= i < |randomDraws| ==> randomDraws[i].InRange()
    ensures |r| == RandomSeedCount
    ensures forall i :: 0 <= i < RandomSeedCount ==> r[i] == RandomId(accountDraws, randomDraws, now, i)
  {
    seq(RandomSeedCount, i requires 0 <= i < RandomSeedCount => RandomId(accountDraws, randomDraws, now, i))
  }

  /**
   * The second seeding loop: seventeen random transactions for accounts
   * `acc-0` .. `acc-4`. A uuid has 36 characters, so a random ID (`txn-` and
   * 13 characters) never overwrites a fixed one.
   */
  method SeedRandom(t0: Table<Transaction>, expected: seq<Transaction>, now: Time,
                    accountDraws: seq<nat>, randomDraws: seq<TransactionDraws>) returns (t: Table<Transaction>)
    requires |expected| == |FixedIds|
    requires StoreInvariant(t0) && HoldsFixedSeed(t0, expected) && |t0.order| == |FixedIds|
    requires |accountDraws| == RandomSeedCount && forall i :: 0 <= i < |accountDraws| ==> accountDraws[i] < 5
    requires |randomDraws| == RandomSeedCount
    requires forall i :: 0 <= i < |randomDraws| ==> randomDraws[i].InRange() && |randomDraws[i].idUuid| == 36
    ensures StoreInvariant(t) && HoldsFixedSeed(t, expected)
    ensures |FixedIds| <= |t.order| <= |FixedIds| + RandomSeedCount
    ensures forall k :: k in t.entries && k !in t0.entries ==> t.entries[k].accountId in RandomAccounts
    ensures forall i :: 0 <= i < RandomSeedCount ==> RandomIds(accountDraws, randomDraws, now)[i] in t.entries
    ensures forall k :: k in t.entries && k !in t0.entries ==>
      exists j :: 0 <= j < RandomSeedCount && t.entries[k] == RandomTxns(accountDraws, randomDraws, now)[j]
  {
    ghost var ids := RandomIds(accountDraws, randomDraws, now);
    ghost var txns := RandomTxns(accountDraws, randomDraws, now);
    t := t0;
    for i := 0 to RandomSeedCount
      invariant StoreInvariant(t) && HoldsFixedSeed(t, expected)
      invariant |FixedIds| <= |t.order| <= |FixedIds| + i
      invariant forall k :: k in t.entries && k !in t0.entries ==> t.entries[k].accountId in RandomAccounts
      invariant IdsStored(t, ids, i)
      invariant NewEntriesGenerated(t, t0, txns, i)
    {
      var accountId := "acc-" + Digits(accountDraws[i]);
      assert accountId == RandomAccounts[accountDraws[i]];
      var txn := GenerateTransaction(accountId, None, now, randomDraws[i]);
      assert txn.transactionId == ids[i];
      RandomKeepsInvariant(t, t0, expected, txn);
      IdsStep(t, ids, i, txn);
      assert txn == txns[i];
      NewEntriesStep(t, t0, txns, i);
      t := t.Insert(txn.transactionId, txn);
    }
  }

  /** `acc-${Math.floor(Math.random() * 5)}`. */
  const RandomAccounts: seq<string> := ["acc-0", "acc-1", "acc-2", "acc-3", "acc-4"]

  /** The in-memory transactions store. */
  class TransactionStore {
    var table: Table<Transaction>

    ghost predicate Valid()
      reads this
    {
      StoreInvariant(table)
    }

    /** Startup seeding: the fixed transactions, then the random ones. */
    constructor (now: Time, fixedDraws: seq<TransactionDraws>, accountDraws: seq<nat>, randomDraws: seq<TransactionDraws>)
      requires |fixedDraws| == |FixedIds| && forall i :: 0 <= i < |fixedDraws| ==> fixedDraws[i].InRange()
      requires |accountDraws| == RandomSeedCount && forall i :: 0 <= i < |accountDraws| ==> accountDraws[i] < 5
      requires |randomDraws| == RandomSeedCount
      requires forall i :: 0 <= i < |randomDraws| ==> randomDraws[i].InRange() && |randomDraws[i].idUuid| == 36
      ensures Valid() && HoldsFixedSeed(table, FixedSeed(now, fixedDraws))
      ensures |FixedIds| <= |table.order| <= |FixedIds| + RandomSeedCount
      ensures forall i :: 0 <= i < RandomSeedCount ==> RandomIds(accountDraws, randomDraws, now)[i] in table.entries
      ensures forall k :: k in table.entries && k !in FixedIds ==> table.entries[k].accountId in RandomAccounts
      ensures forall k :: k in table.entries && k !in FixedIds ==>
        exists j :: 0 <= j < RandomSeedCount && table.entries[k] == RandomTxns(accountDraws, randomDraws, now)[j]
    {
      var t := SeedFixed(now, fixedDraws);
      t := SeedRandom(t, FixedSeed(now, fixedDraws), now, accountDraws, randomDraws);
      table := t;
    }

    /** `GET /transactions/:transactionId`. */
    function Get(transactionId: string): (r: Result<Transaction>)
      reads this
      requires Valid()
      ensures transactionId !in table.entries ==> r.FailsWith(404, "TRANSACTION_NOT_FOUND")
      ensures transactionId in table.entries ==> r == Ok(table.entries[transactionId])
      ensures r.Ok? ==> r.value.transactionId == transactionId && WellFormedTransaction(r.value)
    {
      if transactionId in table.entries then Ok(table.entries[transactionId])
      else Err(CreateError(404, "TRANSACTION_NOT_FOUND", "Transaction " + transactionId + " not found", None))
    }

    /** `GET /transactions`: filter, sort in place, cut the page. */
    method List(q: TransactionQuery, req: PageRequest) returns (r: TransactionList)
      requires Valid() && req.InRange()
      ensures r == ListOf(table.Values(), q, req)
      ensures |r.transactions| <= req.Limit() && SortedDesc(r.transactions, TransactionDate)
      ensures forall t :: t in r.transactions ==> t in table.Values() && Matches(t, q)
      ensures r.pagination.totalRecords == |Filter(table.Values(), MatchesQuery(q))|
    {
      var list := table.Values();
      list := Step(list, Truthy(q.accountId), ByAccount(q));
      list := Step(list, Truthy(q.transactionType), ByType(q));
      list := Step(list, q.startDate.Some?, NotBefore(q));
      list := Step(list, q.endDate.Some?, NotAfter(q));
      list := Step(list, q.minAmount.Some?, AtLeast(q));
      list := Step(list, q.maxAmount.Some?, AtMost(q));
      ChainIsOneFilter(table.Values(), q);
      var total := |list|;
      list := SortedCopy(list, TransactionDate);
      var page := Paginate(list, req.Page(), req.Limit());
      r := TransactionList(page, GeneratePagination(req.Page(), req.Limit(), total));
      ListSound(table.Values(), q, req);
    }
  }

  /** Asking for DEBIT transactions lists only negative amounts. */
  lemma DebitFilterListsNegativeAmounts(store: TransactionStore, q: TransactionQuery, req: PageRequest)
    requires store.Valid() && req.InRange() && q.transactionType == Some("DEBIT")
    ensures forall t :: t in ListOf(store.table.Values(), q, req).transactions ==> t.amount < 0
  {
    ListSound(store.table.Values(), q, req);
    forall t | t in ListOf(store.table.Values(), q, req).transactions ensures t.amount < 0 {
      var i :| 0 <= i < |store.table.order| && store.table.Values()[i] == t;
      assert WellFormedTransaction(store.table.entries[store.table.order[i]]);
    }
  }
}
