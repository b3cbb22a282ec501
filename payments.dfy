/** The payments and wallets view (src/components/PaymentsWallets.tsx): the
    filtered transaction list with its optional user and operator fields,
    the transaction menu and its refund entry, the operator settlements with
    their payout button and footer, and the console commands. */
module Payments {
  import opened Optional
  import opened JsText
  import opened Collections
  import opened Display
  import opened Notices

  /** A transaction names a user (payments, recharges), an operator
      (payouts) or both. */
  datatype Transaction = Transaction(
    id: string,
    kind: string,
    user: Option<string>,
    cpo: Option<string>,
    status: string)

  /** `field?.toLowerCase().includes(...)`: a missing field gives
      `undefined`, which does not match. */
  predicate OptionalIncludes(field: Option<string>, search: string) {
    field.Some? && IncludesIgnoringCase(field.value, search)
  }

  predicate SearchMatches(t: Transaction, search: string) {
    IncludesIgnoringCase(t.id, search)
    || OptionalIncludes(t.user, search)
    || OptionalIncludes(t.cpo, search)
  }

  /** The `filteredTransactions` predicate. */
  predicate TransactionMatches(t: Transaction, search: string, statusFilter: string) {
    SearchMatches(t, search) && MatchesFilter(statusFilter, t.status)
  }

  function FilteredTransactions(transactions: seq<Transaction>, search: string, statusFilter: string): (r: seq<Transaction>)
    ensures IsSubsequence(r, transactions)
    ensures forall t :: t in r <==> t in transactions && TransactionMatches(t, search, statusFilter)
  {
    FilterIsSubsequence(transactions, (t: Transaction) => TransactionMatches(t, search, statusFilter));
    Filter(transactions, (t: Transaction) => TransactionMatches(t, search, statusFilter))
  }

  /** Every transaction has an id, and the empty search occurs in it, so
      with status 'all' nothing is hidden, whatever user and operator are
      missing. */
  lemma NoCriteriaShowsAllTransactions(transactions: seq<Transaction>)
    ensures FilteredTransactions(transactions, "", "all") == transactions
  {
    forall t | t in transactions ensures TransactionMatches(t, "", "all") {
      IncludesEmpty(ToLower(t.id));
    }
    FilterKeepsAll(transactions, (t: Transaction) => TransactionMatches(t, "", "all"));
  }

  lemma FilteredTransactionsIdempotent(transactions: seq<Transaction>, search: string, statusFilter: string)
    ensures var once := FilteredTransactions(transactions, search, statusFilter);
            FilteredTransactions(once, search, statusFilter) == once
  {
    FilterIdempotent(transactions, (t: Transaction) => TransactionMatches(t, search, statusFilter));
  }

  /** A transaction without user and operator is found only through its id. */
  lemma MissingPartiesMatchById(t: Transaction, search: string)
    requires t.user.None? && t.cpo.None?
    ensures SearchMatches(t, search) <==> IncludesIgnoringCase(t.id, search)
  {
  }

  /** `getStatusColor` of the transactions and settlements. */
  function StatusTone(status: string): (c: Tone)
    ensures c == Green <==> status == "completed"
    ensures c == Yellow <==> status == "processing"
    ensures c == Blue <==> status == "pending"
    ensures c == Red <==> status == "failed"
    ensures c == Orange <==> status == "hold"
    ensures c == Gray <==> status !in {"completed", "processing", "pending", "failed", "hold"}
  {
    match status
    case "completed" => Green
    case "processing" => Yellow
    case "pending" => Blue
    case "failed" => Red
    case "hold" => Orange
    case _ => Gray
  }

  /** The second line of a transaction row: `user || cpo`. */
  function Party(t: Transaction): (r: Option<string>)
    ensures StrTruthy(t.user) ==> r == t.user
    ensures !StrTruthy(t.user) ==> r == t.cpo
  {
    StrOr(t.user, t.cpo)
  }

  /** A payout row, which has no user, shows its operator. */
  lemma PayoutShowsOperator(t: Transaction)
    requires t.user.None?
    ensures Party(t) == t.cpo
  {
  }

  /** The commands behind the view's buttons; each only writes a console
      line. */
  datatype Command = ProcessRefund | ProcessPayout | GenerateInvoice

  /** `processRefund`, `processPayout`, `generateInvoice`. */
  function CommandLog(command: Command, id: string): (n: Notice)
    ensures n.ConsoleLog?
  {
    ConsoleLog(
      match command
      case ProcessRefund => "Processing refund for transaction " + id
      case ProcessPayout => "Processing payout " + id
      case GenerateInvoice => "Generating invoice for transaction " + id)
  }

  /** The console line tells which command ran on which record. */
  lemma CommandLogInjective(c1: Command, id1: string, c2: Command, id2: string)
    requires CommandLog(c1, id1) == CommandLog(c2, id2)
    ensures c1 == c2 && id1 == id2
  {
    var t1, t2 := CommandLog(c1, id1).text, CommandLog(c2, id2).text;
    assert t1[0] == t2[0] && t1[11] == t2[11];
    assert c1 == c2;
    match c1
    case ProcessRefund => PrefixCancel("Processing refund for transaction ", id1, id2);
    case ProcessPayout => PrefixCancel("Processing payout ", id1, id2);
    case GenerateInvoice => PrefixCancel("Generating invoice for transaction ", id1, id2);
  }

  datatype MenuItem = ViewDetails | Run(command: Command)

  /** A transaction's action menu: a refund is offered only for a payment. */
  function TransactionMenu(t: Transaction): (items: seq<MenuItem>)
    ensures |items| >= 2 && items[..2] == [ViewDetails, Run(GenerateInvoice)]
    ensures Run(ProcessRefund) in items <==> t.kind == "payment"
    ensures Run(ProcessPayout) !in items
  {
    [ViewDetails, Run(GenerateInvoice)] + if t.kind == "payment" then [Run(ProcessRefund)] else []
  }

  /** The 'Amount Breakdown' of the details dialog is shown for payments
      only. */
  predicate BreakdownShown(t: Transaction) {
    t.kind == "payment"
  }

  datatype Settlement = Settlement(
    id: string,
    cpo: string,
    status: string,
    processedAt: Option<string>,
    scheduledAt: Option<string>,
    note: Option<string>)

  /** The 'Process Payout' button, present only while a settlement is
      pending. */
  function PayoutButton(s: Settlement): (b: Option<Command>)
    ensures b.Some? <==> s.status == "pending"
    ensures b.Some? ==> b.value == ProcessPayout
  {
    if s.status == "pending" then Some(ProcessPayout) else None
  }

  /** The footer of a settlement: 'Processed' for a completed one and
      'Scheduled' otherwise, then `processedAt || scheduledAt`. */
  function SettlementFooter(s: Settlement): (r: (string, Option<string>))
    ensures r.0 == "Processed" <==> s.status == "completed"
    ensures r.0 == "Scheduled" <==> s.status != "completed"
    ensures StrTruthy(s.processedAt) ==> r.1 == s.processedAt
    ensures !StrTruthy(s.processedAt) ==> r.1 == s.scheduledAt
  {
    (if s.status == "completed" then "Processed" else "Scheduled", StrOr(s.processedAt, s.scheduledAt))
  }

  /** A settlement on hold with neither time set is labelled 'Scheduled'
      with no time after it. */
  lemma HeldSettlementFooter(s: Settlement)
    requires s.status == "hold" && s.processedAt.None? && s.scheduledAt.None?
    ensures SettlementFooter(s) == ("Scheduled", None)
  {
  }

  /** The yellow note of a settlement is shown when it has a non-empty
      note. */
  predicate NoteShown(s: Settlement) {
    StrTruthy(s.note)
  }
}
