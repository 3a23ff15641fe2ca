/**
 * The mock data generators. Every call of `Math.random`, `uuidv4` and the clock
 * is a parameter: a record of draws (with the ranges `Math.random` guarantees)
 * and the current time `now`. Money is in pence, times are milliseconds since
 * the epoch and dates are day numbers.
 */
module MockData {
  import opened Wrappers
  import opened Text
  import opened ErrorHandler

  /** A calendar date (UTC) as the number of days since the epoch. */
  type Day = int
  /** An amount of money in pence. */
  type Pence = int

  const DayMs := 86400000

  /** `new Date(t).toISOString().split('T')[0]`: the UTC day of a time. */
  function DayOf(t: Time): Day {
    t / DayMs
  }

  /** `id || prefix + uuidv4().substring(0, 13)`: a supplied ID is reused verbatim. */
  function IdOr(id: Option<string>, prefix: string, uuid: string): (r: string)
    ensures Truthy(id) ==> r == id.value
    ensures !Truthy(id) ==> StartsWith(r, prefix) && |r| == |prefix| + (if |uuid| < 13 then |uuid| else 13)
    ensures !Truthy(id) ==> |prefix| <= |r| && r[|prefix|..] <= uuid
  {
    if Truthy(id) then id.value
    else
      StartsWithConcat(prefix, Prefix(uuid, 13));
      prefix + Prefix(uuid, 13)
  }

  /** `${n}` for a number of exactly k digits. */
  function FixedDigits(n: nat, k: nat): (r: string)
    requires 1 <= k && Pow10(k - 1) <= n < Pow10(k)
    ensures |r| == k && forall i :: 0 <= i < k ==> IsDigit(r[i])
  {
    DigitsLength(n, k);
    Digits(n)
  }

  // ---------------------------------------------------------------- accounts

  datatype Branch = Branch(branchId: string, branchName: string, branchCode: string)

  datatype Account = Account(
    accountId: string,
    accountNumber: string,
    fullAccountNumber: string,
    accountType: string,
    currency: string,
    status: string,
    nickname: string,
    openedDate: Day,
    branch: Branch,
    availableBalance: Pence,
    currentBalance: Pence,
    overdraftLimit: Pence,
    interestRate: int,   // hundredths of a percent
    lastTransactionDate: Time)

  /**
   * The random inputs of one `generateAccount` call. Balances are the drawn
   * pence above 1000.00 after `toFixed(2)`, which rounds, so 50000.00 is reachable.
   */
  datatype AccountDraws = AccountDraws(
    idUuid: string,
    numberDraw: nat,
    ibanFirst: nat,
    ibanSecond: nat,
    openedAgo: nat,
    branchUuid: string,
    available: nat,
    current: nat,
    lastTransactionAgo: nat)
  {
    predicate InRange() {
      && numberDraw < 9000 && ibanFirst < 90000000 && ibanSecond < 90000000
      && openedAgo <= 365 * DayMs && lastTransactionAgo <= 7 * DayMs
      && available <= 5000000 && current <= 5000000
    }
  }

  const CheckingOverdraft: Pence := 100000
  const SavingsRate := 250
  const StandardRate := 10
  const MinBalance: Pence := 100000
  const MaxBalance: Pence := 5100000

  function AccountNickname(accountType: string): string {
    if accountType == "CHECKING" then "Main Account"
    else if accountType == "SAVINGS" then "Savings Account"
    else "Business Account"
  }

  /** The relations between the fields of every generated account. */
  predicate WellFormedAccount(a: Account) {
    && (a.accountType == "CHECKING" ==> a.overdraftLimit == CheckingOverdraft)
    && (a.accountType != "CHECKING" ==> a.overdraftLimit == 0)
    && (a.accountType == "SAVINGS" ==> a.interestRate == SavingsRate)
    && (a.accountType != "SAVINGS" ==> a.interestRate == StandardRate)
    && a.nickname == AccountNickname(a.accountType)
    && MinBalance <= a.availableBalance <= MaxBalance
    && MinBalance <= a.currentBalance <= MaxBalance
    && a.currency == "GBP" && a.status == "ACTIVE"
    && |a.accountNumber| == 8 && StartsWith(a.accountNumber, "****")
  }

  /** `generateAccount(accountId, type)`. */
  function GenerateAccount(accountId: Option<string>, accountType: string, now: Time, d: AccountDraws): (r: Account)
    requires d.InRange()
    ensures WellFormedAccount(r)
    ensures r.accountType == accountType
    ensures Truthy(accountId) ==> r.accountId == accountId.value
    ensures !Truthy(accountId) ==> StartsWith(r.accountId, "acc-")
    ensures r.availableBalance == MinBalance + d.available && r.currentBalance == MinBalance + d.current
    ensures r.openedDate <= DayOf(now) && r.lastTransactionDate <= now
  {
    Pow10Table();
    var number := FixedDigits(1000 + d.numberDraw, 4);
    StartsWithConcat("****", number);
    Account(
      IdOr(accountId, "acc-", d.idUuid),
      "****" + number,
      "GB" + FixedDigits(10000000 + d.ibanFirst, 8) + FixedDigits(10000000 + d.ibanSecond, 8),
      accountType,
      "GBP",
      "ACTIVE",
      AccountNickname(accountType),
      DayOf(now - d.openedAgo),
      Branch("br-" + Prefix(d.branchUuid, 8), "London Main Branch", "LMB001"),
      MinBalance + d.available,
      MinBalance + d.current,
      if accountType == "CHECKING" then CheckingOverdraft else 0,
      if accountType == "SAVINGS" then SavingsRate else StandardRate,
      now - d.lastTransactionAgo)
  }

  // ------------------------------------------------------------ transactions

  const TransactionTypes: seq<string> := ["DEBIT", "CREDIT", "TRANSFER", "PAYMENT", "FEE"]

  datatype Merchant = Merchant(name: string, category: string, location: string)

  const Merchants: seq<Merchant> := [
    Merchant("Amazon UK", "Shopping", "Online"),
    Merchant("Tesco Superstore", "Groceries", "London, UK"),
    Merchant("Shell Petrol Station", "Fuel", "Manchester, UK"),
    Merchant("Netflix", "Entertainment", "Online"),
    Merchant("Starbucks", "Food & Drink", "Birmingham, UK")]

  datatype Metadata = Metadata(channel: string, cardLast4: string, authorizationCode: string)

  datatype Transaction = Transaction(
    transactionId: string,
    accountId: string,
    transactionType: string,
    amount: Pence,
    currency: string,
    description: string,
    transactionDate: Time,
    valueDate: Time,
    status: string,
    balance: Pence,
    merchant: Merchant,
    metadata: Metadata)

  /** The key the routes sort transactions by: `new Date(t.transactionDate)`. */
  function TransactionDate(t: Transaction): int {
    t.transactionDate
  }

  /** The random inputs of one `generateTransaction` call; `amount` is the drawn pence above 10.00. */
  datatype TransactionDraws = TransactionDraws(
    idUuid: string,
    typeIndex: nat,
    amount: nat,
    merchantIndex: nat,
    dateAgo: nat,
    valueDateAgo: nat,
    balance: nat,
    online: bool,
    cardDraw: nat,
    authDraw: nat)
  {
    predicate InRange() {
      && typeIndex < |TransactionTypes| && amount <= 50000 && merchantIndex < |Merchants|
      && dateAgo <= 30 * DayMs && valueDateAgo <= 30 * DayMs && balance <= 1000000
      && cardDraw < 9000 && authDraw < 900000
    }
  }

  const MinTransactionAmount: Pence := 1000
  const MaxTransactionAmount: Pence := 51000

  function Abs(x: int): (r: nat)
    ensures r == x || r == -x
  {
    if x < 0 then -x else x
  }

  /** The relations between the fields of every generated transaction. */
  predicate WellFormedTransaction(t: Transaction) {
    && t.transactionType in TransactionTypes
    && (t.amount < 0 <==> t.transactionType == "DEBIT")
    && MinTransactionAmount <= Abs(t.amount) <= MaxTransactionAmount
    && t.merchant in Merchants
    && t.currency == "GBP" && t.status == "COMPLETED"
  }

  /** `generateTransaction(accountId, transactionId)`. */
  function GenerateTransaction(accountId: string, transactionId: Option<string>, now: Time, d: TransactionDraws): (r: Transaction)
    requires d.InRange()
    ensures WellFormedTransaction(r)
    ensures r.accountId == accountId
    ensures Truthy(transactionId) ==> r.transactionId == transactionId.value
    ensures !Truthy(transactionId) ==> StartsWith(r.transactionId, "txn-")
    ensures !Truthy(transactionId) && |d.idUuid| >= 13 ==> |r.transactionId| == 17
    ensures r.transactionType == TransactionTypes[d.typeIndex]
    ensures Abs(r.amount) == MinTransactionAmount + d.amount
    ensures now - 30 * DayMs <= r.transactionDate <= now
  {
    Pow10Table();
    var kind := TransactionTypes[d.typeIndex];
    var amount := MinTransactionAmount + d.amount;
    var merchant := Merchants[d.merchantIndex];
    Transaction(
      IdOr(transactionId, "txn-", d.idUuid),
      accountId,
      kind,
      if kind == "DEBIT" then -amount else amount,
      "GBP",
      merchant.name + " - " + merchant.category,
      now - d.dateAgo,
      now - d.valueDateAgo,
      "COMPLETED",
      100000 + d.balance,
      merchant,
      Metadata(if d.online then "ONLINE" else "POS", FixedDigits(1000 + d.cardDraw, 4),
               "AUTH" + FixedDigits(100000 + d.authDraw, 6)))
  }

  // ---------------------------------------------------------------- payments

  const GeneratedStatuses: seq<string> := ["PENDING", "PROCESSING", "COMPLETED", "FAILED"]

  datatype Payment = Payment(
    paymentId: string,
    status: string,
    fromAccountId: string,
    toBeneficiaryId: string,
    amount: Pence,
    currency: string,
    paymentType: string,
    reference: string,
    scheduledDate: Day,
    createdAt: Time,
    completedAt: Option<Time>,
    cancelledAt: Option<Time>,
    estimatedCompletionDate: Day,
    transactionId: Option<string>,
    cancellationReason: Option<string>,
    urgency: Option<string>)   // absent until the create route sets it

  /** The random inputs of one `generatePayment` call. */
  datatype PaymentDraws = PaymentDraws(idUuid: string, statusIndex: nat, transactionUuid: string) {
    predicate InRange() {
      statusIndex < |GeneratedStatuses|
    }
  }

  /**
   * The lifecycle invariant of a payment: completion data exactly when COMPLETED,
   * cancellation data exactly when CANCELLED.
   */
  predicate PaymentLifecycle(p: Payment) {
    && (p.completedAt.Some? <==> p.status == "COMPLETED")
    && (p.transactionId.Some? <==> p.status == "COMPLETED")
    && (p.cancelledAt.Some? <==> p.status == "CANCELLED")
    && (p.cancellationReason.Some? <==> p.status == "CANCELLED")
  }

  /** `generatePayment(fromAccountId, toBeneficiaryId, amount, paymentId)`. */
  function GeneratePayment(fromAccountId: string, toBeneficiaryId: string, amount: Pence,
                           paymentId: Option<string>, now: Time, d: PaymentDraws): (r: Payment)
    requires d.InRange()
    ensures PaymentLifecycle(r)
    ensures r.status in GeneratedStatuses && r.status != "CANCELLED"
    ensures r.cancelledAt.None? && r.cancellationReason.None?
    ensures r.transactionId.Some? ==> StartsWith(r.transactionId.value, "txn-")
    ensures r.amount == amount && r.fromAccountId == fromAccountId && r.toBeneficiaryId == toBeneficiaryId
    ensures Truthy(paymentId) ==> r.paymentId == paymentId.value
    ensures !Truthy(paymentId) ==> StartsWith(r.paymentId, "pmt-")
    ensures r.createdAt == now && r.scheduledDate == DayOf(now)
  {
    var id := IdOr(paymentId, "pmt-", d.idUuid);
    var status := GeneratedStatuses[d.statusIndex];
    StartsWithConcat("txn-", Prefix(d.transactionUuid, 13));
    Payment(
      id, status, fromAccountId, toBeneficiaryId, amount, "GBP", "DOMESTIC",
      "Payment " + Prefix(id, 8),
      DayOf(now),
      now,
      if status == "COMPLETED" then Some(now) else None,
      None,
      DayOf(now + DayMs),
      if status == "COMPLETED" then Some("txn-" + Prefix(d.transactionUuid, 13)) else None,
      None,
      None)
  }

  // ----------------------------------------------------------- beneficiaries

  datatype Address = Address(street: string, city: string, state: string, postalCode: string, country: string)

  const BankAddress := Address("1 Churchill Place", "London", "Greater London", "E14 5HP", "GB")

  const BeneficiaryTypes: seq<string> := ["INDIVIDUAL", "BUSINESS"]

  const IndividualNames: seq<string> := ["John Smith", "Sarah Johnson", "Michael Brown", "Emma Wilson", "David Taylor"]
  const BusinessNames: seq<string> := ["ABC Ltd", "XYZ Corporation", "Tech Solutions Inc", "Global Services Ltd", "Prime Enterprises"]

  datatype Beneficiary = Beneficiary(
    beneficiaryId: string,
    beneficiaryType: string,
    name: string,
    nickname: string,
    accountNumber: string,
    routingNumber: string,
    bankName: string,
    bankAddress: Address,
    email: string,
    phone: string,
    status: string,
    createdAt: Time,
    lastUsed: Time)

  /** The random inputs of one `generateBeneficiary` call. */
  datatype BeneficiaryDraws = BeneficiaryDraws(
    idUuid: string,
    typeIndex: nat,
    nameIndex: nat,
    accountDraw: nat,
    routingDraw: nat,
    phoneDraw: nat,
    createdAgo: nat,
    lastUsedAgo: nat)
  {
    predicate InRange() {
      && typeIndex < |BeneficiaryTypes| && nameIndex < 5
      && accountDraw < 90000000 && routingDraw < 900000 && phoneDraw < 9000000000
      && createdAgo <= 365 * DayMs && lastUsedAgo <= 30 * DayMs
    }
  }

  /** `${name.toLowerCase().replace(/\s+/g, '.')}@example.com` */
  function EmailFor(name: string): (r: string)
    ensures |r| >= 12 && r[|r| - 12..] == "@example.com"
    ensures forall i :: 0 <= i < |r| - 12 ==> !IsSpace(r[i]) && !('A' <= r[i] <= 'Z')
  {
    var lower := ToLower(name);
    var local := DotSpaces(lower);
    forall i | 0 <= i < |local| ensures !('A' <= local[i] <= 'Z') {
      assert local[i] in local;
      if local[i] != '.' {
        var j :| 0 <= j < |lower| && lower[j] == local[i];
      }
    }
    local + "@example.com"
  }

  /** `generateBeneficiary(beneficiaryId)`. */
  function GenerateBeneficiary(beneficiaryId: Option<string>, now: Time, d: BeneficiaryDraws): (r: Beneficiary)
    requires d.InRange()
    ensures Truthy(beneficiaryId) ==> r.beneficiaryId == beneficiaryId.value
    ensures !Truthy(beneficiaryId) ==> StartsWith(r.beneficiaryId, "ben-")
    ensures r.beneficiaryType in BeneficiaryTypes
    ensures r.name in (if r.beneficiaryType == "INDIVIDUAL" then IndividualNames else BusinessNames)
    ensures r.nickname == FirstWord(r.name) && r.nickname <= r.name && ' ' !in r.nickname
    ensures |r.accountNumber| == 8 && forall i :: 0 <= i < 8 ==> IsDigit(r.accountNumber[i])
    ensures |r.routingNumber| == 6 && forall i :: 0 <= i < 6 ==> IsDigit(r.routingNumber[i])
    ensures |r.phone| == 13 && StartsWith(r.phone, "+44") && forall i :: 3 <= i < 13 ==> IsDigit(r.phone[i])
    ensures r.email == EmailFor(r.name)
    ensures r.status == "ACTIVE" && r.bankName == "Barclays Bank" && r.bankAddress == BankAddress
  {
    Pow10Table();
    var kind := BeneficiaryTypes[d.typeIndex];
    var name := if kind == "INDIVIDUAL" then IndividualNames[d.nameIndex] else BusinessNames[d.nameIndex];
    var phoneDigits := FixedDigits(1000000000 + d.phoneDraw, 10);
    StartsWithConcat("+44", phoneDigits);
    Beneficiary(
      IdOr(beneficiaryId, "ben-", d.idUuid),
      kind,
      name,
      FirstWord(name),
      FixedDigits(10000000 + d.accountDraw, 8),
      FixedDigits(100000 + d.routingDraw, 6),
      "Barclays Bank",
      BankAddress,
      EmailFor(name),
      "+44" + phoneDigits,
      "ACTIVE",
      now - d.createdAgo,
      now - d.lastUsedAgo)
  }

  // -------------------------------------------------------------- statements

  datatype Period = Period(startDate: Day, endDate: Day)

  datatype Statement = Statement(
    statementId: string,
    accountId: string,
    period: Period,
    generatedDate: Time,
    format: string,
    size: int,
    status: string)

  /** The random inputs of one `generateStatement` call. */
  datatype StatementDraws = StatementDraws(idUuid: string, sizeDraw: nat) {
    predicate InRange() {
      sizeDraw < 900000
    }
  }

  /** `generateStatement(accountId, statementId)`: the thirty days up to now. */
  function GenerateStatement(accountId: string, statementId: Option<string>, now: Time, d: StatementDraws): (r: Statement)
    requires d.InRange()
    ensures r.accountId == accountId
    ensures Truthy(statementId) ==> r.statementId == statementId.value
    ensures !Truthy(statementId) ==> StartsWith(r.statementId, "stmt-")
    ensures r.period.endDate == DayOf(now) && r.period.endDate - r.period.startDate == 30
    ensures 100000 <= r.size < 1000000
    ensures r.format == "PDF" && r.status == "AVAILABLE"
  {
    Statement(
      IdOr(statementId, "stmt-", d.idUuid),
      accountId,
      Period(DayOf(now - 30 * DayMs), DayOf(now)),
      now,
      "PDF",
      100000 + d.sizeDraw,
      "AVAILABLE")
  }

  // -------------------------------------------------------------- pagination

  datatype Pagination = Pagination(page: int, limit: int, totalPages: int, totalRecords: int)

  /** `Math.ceil(n / d)` for a positive divisor. */
  function CeilDiv(n: nat, d: int): (q: nat)
    requires d >= 1
    ensures n <= q * d < n + d
  {
    var q := (n + d - 1) / d;
    assert n + d - 1 == q * d + (n + d - 1) % d;
    q
  }

  /** `generatePagination(page, limit, totalRecords)`. */
  function GeneratePagination(page: int, limit: int, totalRecords: nat): (r: Pagination)
    requires limit >= 1
    ensures r.page == page && r.limit == limit && r.totalRecords == totalRecords
    ensures r.totalRecords <= r.totalPages * limit < r.totalRecords + limit
    ensures r.totalPages >= 0 && (r.totalPages == 0 <==> totalRecords == 0)
  {
    Pagination(page, limit, CeilDiv(totalRecords, limit), totalRecords)
  }
}
