/**
 * The accounts resource: five accounts seeded at startup under fixed IDs, the
 * list route (type filter, page slice, summary projection), the account ID
 * format check every per-account route makes before its lookup, and the
 * balance, transactions and statements views of one account.
 */
module Accounts {
  import opened Wrappers
  import opened Text
  import opened ErrorHandler
  import opened MockData
  import opened Tables
  import opened Query

  /** The seeded accounts: IDs and, index for index, their types. */
  const FixedIds: seq<string> := ["acc-123456789", "acc-987654321", "acc-111222333", "acc-444555666", "acc-777888999"]
  const FixedTypes: seq<string> := ["CHECKING", "SAVINGS", "BUSINESS", "CHECKING", "SAVINGS"]

  /** The number of transactions the per-account route reports in its pagination. */
  const TotalTransactions := 50
  /** The number of statements the per-account route generates. */
  const StatementCount := 12

  /** `/^acc-\d{9}$/`: `\d` is an ASCII digit and `$` is the end of the string. */
  predicate IsAccountIdFormat(id: string) {
    |id| == 13 && StartsWith(id, "acc-") && forall i :: 4 <= i < 13 ==> IsDigit(id[i])
  }

  lemma FixedIdsDistinct()
    ensures Distinct(FixedIds)
  {
    assert FixedIds[0][4] == '1' && FixedIds[0][5] == '2';
    assert FixedIds[1][4] == '9';
    assert FixedIds[2][4] == '1' && FixedIds[2][5] == '1';
    assert FixedIds[3][4] == '4';
    assert FixedIds[4][4] == '7';
  }

  /** Every seeded ID passes the format check, so the check never hides a stored account. */
  lemma FixedIdsWellFormatted()
    ensures forall i :: 0 <= i < |FixedIds| ==> IsAccountIdFormat(FixedIds[i])
  {
    forall i | 0 <= i < |FixedIds| ensures IsAccountIdFormat(FixedIds[i]) {
      var id := FixedIds[i];
      assert id[..4] == "acc-";
      forall j | 4 <= j < 13 ensures IsDigit(id[j]) {
        assert id[j] in "0123456789";
      }
    }
  }

  /** Keys are the accounts' own IDs, the seeded IDs in order, each a generated account of its seeded type. */
  ghost predicate StoreInvariant(t: Table<Account>) {
    && t.Valid()
    && t.order == FixedIds
    && forall i :: 0 <= i < |FixedIds| ==>
         && t.entries[FixedIds[i]].accountId == FixedIds[i]
         && t.entries[FixedIds[i]].accountType == FixedTypes[i]
         && WellFormedAccount(t.entries[FixedIds[i]])
  }

  /** The five accounts as the seeding loop generates them. */
  function SeededAccounts(now: Time, draws: seq<AccountDraws>): (r: seq<Account>)
    requires |draws| == |FixedIds| && forall i :: 0 <= i < |draws| ==> draws[i].InRange()
    ensures |r| == |FixedIds|
    ensures forall i :: 0 <= i < |FixedIds| ==>
      && r[i] == GenerateAccount(Some(FixedIds[i]), FixedTypes[i], now, draws[i])
      && r[i].accountId == FixedIds[i] && r[i].accountType == FixedTypes[i] && WellFormedAccount(r[i])
  {
    seq(|FixedIds|, i requires 0 <= i < |FixedIds| => GenerateAccount(Some(FixedIds[i]), FixedTypes[i], now, draws[i]))
  }

  /** The first i of the `expected` accounts are stored, in order. */
  ghost predicate SeededUpTo(t: Table<Account>, i: nat, expected: seq<Account>)
    requires i <= |FixedIds| == |expected|
  {
    && t.Valid() && t.order == FixedIds[..i]
    && forall j :: 0 <= j < i ==> FixedIds[j] in t.entries && t.entries[FixedIds[j]] == expected[j]
  }

  lemma SeedStep(t: Table<Account>, i: nat, expected: seq<Account>)
    requires i < |FixedIds| == |expected|
    requires SeededUpTo(t, i, expected)
    ensures SeededUpTo(t.Insert(FixedIds[i], expected[i]), i + 1, expected)
  {
    FixedIdsDistinct();
    assert FixedIds[i] !in FixedIds[..i];
    assert FixedIds[..i + 1] == FixedIds[..i] + [FixedIds[i]];
  }

  /** The seeding loop: one generated account per seeded ID and type, in order. */
  method SeedAccounts(now: Time, draws: seq<AccountDraws>) returns (t: Table<Account>)
    requires |draws| == |FixedIds| && forall i :: 0 <= i < |draws| ==> draws[i].InRange()
    ensures StoreInvariant(t)
    ensures forall i :: 0 <= i < |FixedIds| ==>
      t.entries[FixedIds[i]] == GenerateAccount(Some(FixedIds[i]), FixedTypes[i], now, draws[i])
  {
    ghost var expected := SeededAccounts(now, draws);
    t := EmptyTable();
    for i := 0 to |FixedIds|
      invariant SeededUpTo(t, i, expected)
    {
      var account := GenerateAccount(Some(FixedIds[i]), FixedTypes[i], now, draws[i]);
      assert account == expected[i];
      SeedStep(t, i, expected);
      t := t.Insert(account.accountId, account);
    }
    assert FixedIds[..|FixedIds|] == FixedIds;
  }

  /** The fields the list route projects out of an account. */
  datatype AccountSummary = AccountSummary(
    accountId: string,
    accountNumber: string,
    accountType: string,
    currency: string,
    status: string,
    nickname: string,
    openedDate: Day)

  /** The fields the list route's `map` keeps of one account. */
  function Summary(a: Account): AccountSummary {
    AccountSummary(a.accountId, a.accountNumber, a.accountType, a.currency, a.status, a.nickname, a.openedDate)
  }


  datatype AccountList = AccountList(accounts: seq<AccountSummary>, pagination: Pagination)

  /** The list route's `accountType` filter callback. */
  function OfType(accountType: Option<string>): Account -> bool {
    (a: Account) => a.accountType == accountType.GetOr("")
  }

  /** The balance view of one account. */
  datatype Balance = Balance(
    accountId: string,
    currency: string,
    availableBalance: Pence,
    currentBalance: Pence,
    pendingBalance: Pence,
    overdraftLimit: Pence,
    lastUpdated: Time)

  datatype AccountTransactions = AccountTransactions(transactions: seq<Transaction>, pagination: Pagination)

  /** What the transactions loop generates, in generation order. */
  function GeneratedBatch(accountId: string, now: Time, draws: seq<TransactionDraws>, n: nat): (r: seq<Transaction>)
    requires n <= |draws| && forall i :: 0 <= i < |draws| ==> draws[i].InRange()
    ensures |r| == n
    ensures forall i :: 0 <= i < n ==> r[i].accountId == accountId && WellFormedTransaction(r[i])
  {
    if n == 0 then []
    else GeneratedBatch(accountId, now, draws, n - 1) + [GenerateTransaction(accountId, None, now, draws[n - 1])]
  }

  /** The generation loop of the transactions route. */
  method GenerateBatch(accountId: string, now: Time, draws: seq<TransactionDraws>, n: nat) returns (list: seq<Transaction>)
    requires n <= |draws| && forall i :: 0 <= i < |draws| ==> draws[i].InRange()
    ensures list == GeneratedBatch(accountId, now, draws, n)
  {
    list := [];
    for i := 0 to n
      invariant list == GeneratedBatch(accountId, now, draws, i)
    {
      list := list + [GenerateTransaction(accountId, None, now, draws[i])];
    }
  }

  /** The sorted batch still holds only well-formed transactions of the account. */
  lemma SortedBatchOwned(accountId: string, now: Time, draws: seq<TransactionDraws>, n: nat)
    requires n <= |draws| && forall i :: 0 <= i < |draws| ==> draws[i].InRange()
    ensures var sorted := SortDesc(GeneratedBatch(accountId, now, draws, n), TransactionDate);
      |sorted| == n && forall t :: t in sorted ==> t.accountId == accountId && WellFormedTransaction(t)
  {
    var batch := GeneratedBatch(accountId, now, draws, n);
    var sorted := SortDesc(batch, TransactionDate);
    SortDescPermutes(batch, TransactionDate);
    forall t | t in sorted ensures t.accountId == accountId && WellFormedTransaction(t) {
      assert t in multiset(batch);
    }
  }

  /** The in-memory accounts store. */
  class AccountStore {
    var table: Table<Account>

    ghost predicate Valid()
      reads this
    {
      StoreInvariant(table)
    }

    /** Startup seeding of the five accounts. */
    constructor (now: Time, draws: seq<AccountDraws>)
      requires |draws| == |FixedIds| && forall i :: 0 <= i < |draws| ==> draws[i].InRange()
      ensures Valid()
      ensures forall i :: 0 <= i < |FixedIds| ==>
        table.entries[FixedIds[i]] == GenerateAccount(Some(FixedIds[i]), FixedTypes[i], now, draws[i])
    {
      var t := SeedAccounts(now, draws);
      table := t;
    }

    /** The format check, then the lookup, that every per-account route starts with. */
    function Find(accountId: string): (r: Result<Account>)
      reads this
      requires Valid()
      ensures !IsAccountIdFormat(accountId) ==> r.FailsWith(400, "INVALID_ACCOUNT_ID")
      ensures IsAccountIdFormat(accountId) && accountId !in table.entries ==> r.FailsWith(404, "ACCOUNT_NOT_FOUND")
      ensures r.Ok? <==> IsAccountIdFormat(accountId) && accountId in table.entries
      ensures r.Ok? ==> r.value == table.entries[accountId] && r.value.accountId == accountId && WellFormedAccount(r.value)
    {
      if !IsAccountIdFormat(accountId) then
        Err(CreateError(400, "INVALID_ACCOUNT_ID", "Invalid account ID format. Expected format: acc-XXXXXXXXX", None))
      else if accountId !in table.entries then
        Err(CreateError(404, "ACCOUNT_NOT_FOUND", "Account " + accountId + " not found", None))
      else
        Ok(table.entries[accountId])
    }

    /** `GET /accounts`. */
    function List(accountType: Option<string>, req: PageRequest): (r: AccountList)
      reads this
      requires Valid() && req.InRange()
      ensures |r.accounts| <= req.Limit()
      ensures forall s :: s in r.accounts ==> SummarisesStored(table.entries, s, accountType)
      ensures r.pagination == GeneratePagination(req.Page(), req.Limit(),
                                                 Count(table.Values(), When(Truthy(accountType), OfType(accountType))))
      ensures r.accounts == Map(Paginate(Step(table.Values(), Truthy(accountType), OfType(accountType)), req.Page(), req.Limit()), Summary)
    {
      var matching := Step(table.Values(), Truthy(accountType), OfType(accountType));
      ListSound(table, accountType, req);
      StepIsFilter(table.Values(), Truthy(accountType), OfType(accountType));
      FilterCount(table.Values(), When(Truthy(accountType), OfType(accountType)));
      AccountList(Map(Paginate(matching, req.Page(), req.Limit()), Summary),
                  GeneratePagination(req.Page(), req.Limit(), |matching|))
    }

    /** `GET /accounts/:accountId/balance`; `lastUpdated` is the clock's reading. */
    function GetBalance(accountId: string, lastUpdated: Time): (r: Result<Balance>)
      reads this
      requires Valid()
      ensures r.Ok? <==> Find(accountId).Ok?
      ensures r.Err? ==> r.error == Find(accountId).error
      ensures r.Ok? ==> var a := table.entries[accountId];
        && r.value == Balance(accountId, a.currency, a.availableBalance, a.currentBalance, 0, a.overdraftLimit, lastUpdated)
        && a.availableBalance >= MinBalance && a.currentBalance >= MinBalance
    {
      match Find(accountId)
      case Err(e) => Err(e)
      case Ok(a) => Ok(Balance(a.accountId, a.currency, a.availableBalance, a.currentBalance, 0, a.overdraftLimit, lastUpdated))
    }

    /**
     * `GET /accounts/:accountId/transactions`: `min(50, limit)` freshly generated
     * transactions, sorted newest first; the pagination always reports 50 records
     * and the page number does not change which transactions are returned.
     */
    method Transactions(accountId: string, req: PageRequest, now: Time, draws: seq<TransactionDraws>)
      returns (r: Result<AccountTransactions>)
      requires Valid() && req.InRange()
      requires |draws| >= Min(TotalTransactions, req.Limit()) && forall i :: 0 <= i < |draws| ==> draws[i].InRange()
      ensures r.Ok? <==> Find(accountId).Ok?
      ensures r.Err? ==> r.error == Find(accountId).error
      ensures r.Ok? ==>
        var batch := GeneratedBatch(accountId, now, draws, Min(TotalTransactions, req.Limit()));
        && r.value.transactions == SortDesc(batch, TransactionDate)
        && |r.value.transactions| == Min(TotalTransactions, req.Limit())
        && multiset(r.value.transactions) == multiset(batch)
        && SortedDesc(r.value.transactions, TransactionDate)
        && (forall t :: t in r.value.transactions ==> t.accountId == accountId && WellFormedTransaction(t))
        && r.value.pagination == GeneratePagination(req.Page(), req.Limit(), TotalTransactions)
    {
      var found := Find(accountId);
      if found.Err? {
        return Err(found.error);
      }
      var n := Min(TotalTransactions, req.Limit());
      var list := GenerateBatch(accountId, now, draws, n);
      SortedBatchOwned(accountId, now, draws, n);
      list := SortedCopy(list, TransactionDate);
      r := Ok(AccountTransactions(list, GeneratePagination(req.Page(), req.Limit(), TotalTransactions)));
    }

    /** `GET /accounts/:accountId/statements`: twelve freshly generated statements; `year` and `month` are not read. */
    method Statements(accountId: string, now: Time, draws: seq<StatementDraws>) returns (r: Result<seq<Statement>>)
      requires Valid()
      requires |draws| >= StatementCount && forall i :: 0 <= i < |draws| ==> draws[i].InRange()
      ensures r.Ok? <==> Find(accountId).Ok?
      ensures r.Err? ==> r.error == Find(accountId).error
      ensures r.Ok? ==> |r.value| == StatementCount
      ensures r.Ok? ==> forall i :: 0 <= i < StatementCount ==>
        r.value[i] == GenerateStatement(accountId, None, now, draws[i]) &&
        r.value[i].accountId == accountId && r.value[i].period.endDate == DayOf(now)
    {
      var found := Find(accountId);
      if found.Err? {
        return Err(found.error);
      }
      var statements: seq<Statement> := [];
      for i := 0 to StatementCount
        invariant |statements| == i
        invariant forall j :: 0 <= j < i ==> statements[j] == GenerateStatement(accountId, None, now, draws[j])
      {
        statements := statements + [GenerateStatement(accountId, None, now, draws[i])];
      }
      r := Ok(statements);
    }
  }

  /** A summary of some stored account, of the requested type when one is given. */
  predicate SummarisesStored(entries: map<string, Account>, s: AccountSummary, accountType: Option<string>) {
    exists k :: k in entries && s == Summary(entries[k]) && (Truthy(accountType) ==> entries[k].accountType == accountType.value)
  }

  /** Every summary on a page of the list route is that of a stored account of the requested type. */
  lemma ListSound(t: Table<Account>, accountType: Option<string>, req: PageRequest)
    requires t.Valid() && req.InRange()
    ensures var page := Paginate(Step(t.Values(), Truthy(accountType), OfType(accountType)), req.Page(), req.Limit());
      forall s :: s in Map(page, Summary) ==> SummarisesStored(t.entries, s, accountType)
  {
    var values := t.Values();
    var matching := Step(values, Truthy(accountType), OfType(accountType));
    var page := Paginate(matching, req.Page(), req.Limit());
    var summaries := Map(page, Summary);
    forall s | s in summaries ensures SummarisesStored(t.entries, s, accountType) {
      var i :| 0 <= i < |summaries| && summaries[i] == s;
      var a := page[i];
      PageWithin(matching, req.Page(), req.Limit(), a);
      assert a in values;
      var j :| 0 <= j < |values| && values[j] == a;
      var k := t.order[j];
      assert t.entries[k] == a;
      assert Truthy(accountType) ==> OfType(accountType)(a);
    }
  }

  /** The unfiltered first page with the default limit is every seeded account, in seeding order. */
  lemma DefaultListIsAllAccounts(store: AccountStore)
    requires store.Valid()
    ensures var r := store.List(None, PageRequest(None, None));
      && |r.accounts| == |FixedIds|
      && (forall i :: 0 <= i < |FixedIds| ==> r.accounts[i].accountId == FixedIds[i] && r.accounts[i].accountType == FixedTypes[i])
      && r.pagination == Pagination(1, 20, 1, 5)
  {
    var r := store.List(None, PageRequest(None, None));
    var values := store.table.Values();
    assert StartIndex(1, 20) == 0;
    assert |Paginate(values, 1, 20)| == 5;
    assert GeneratePagination(1, 20, 5).totalPages == 1;
  }

  /** Filtering by a type lists exactly the stored accounts of that type. */
  lemma FilterByTypeComplete(store: AccountStore, accountType: string, i: nat)
    requires store.Valid() && accountType != "" && i < |FixedIds| && FixedTypes[i] == accountType
    ensures store.table.entries[FixedIds[i]] in Step(store.table.Values(), Truthy(Some(accountType)), OfType(Some(accountType)))
  {
    assert store.table.Values()[i] == store.table.entries[FixedIds[i]];
  }
}
