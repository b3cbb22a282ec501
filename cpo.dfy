/** The charge-point-operator integration view
    (src/components/CPOIntegration.tsx): the filtered operator list, the
    status and health colours, the error banner and the console commands of
    each operator's menu. */
module Cpo {
  import opened Optional
  import opened JsText
  import opened Collections
  import opened Display
  import opened Notices

  datatype Operator = Operator(
    id: string,
    name: string,
    contactPerson: string,
    email: string,
    status: string,
    connectionHealth: real,
    errorMessage: Option<string>)

  /** Name, contact person or email contains the search, ignoring case. */
  predicate SearchMatches(o: Operator, search: string) {
    IncludesIgnoringCase(o.name, search)
    || IncludesIgnoringCase(o.contactPerson, search)
    || IncludesIgnoringCase(o.email, search)
  }

  /** The `filteredCPOs` predicate. */
  predicate OperatorMatches(o: Operator, search: string, statusFilter: string) {
    SearchMatches(o, search) && MatchesFilter(statusFilter, o.status)
  }

  function FilteredOperators(operators: seq<Operator>, search: string, statusFilter: string): (r: seq<Operator>)
    ensures IsSubsequence(r, operators)
    ensures forall o :: o in r <==> o in operators && OperatorMatches(o, search, statusFilter)
  {
    FilterIsSubsequence(operators, (o: Operator) => OperatorMatches(o, search, statusFilter));
    Filter(operators, (o: Operator) => OperatorMatches(o, search, statusFilter))
  }

  lemma NoCriteriaShowsAllOperators(operators: seq<Operator>)
    ensures FilteredOperators(operators, "", "all") == operators
  {
    forall o | o in operators ensures OperatorMatches(o, "", "all") {
      IncludesEmpty(ToLower(o.name));
    }
    FilterKeepsAll(operators, (o: Operator) => OperatorMatches(o, "", "all"));
  }

  lemma FilteredOperatorsIdempotent(operators: seq<Operator>, search: string, statusFilter: string)
    ensures var once := FilteredOperators(operators, search, statusFilter);
            FilteredOperators(once, search, statusFilter) == once
  {
    FilterIdempotent(operators, (o: Operator) => OperatorMatches(o, search, statusFilter));
  }

  /** `getStatusColor`: 'disconnected' and every unknown status are grey. */
  function StatusTone(status: string): (t: Tone)
    ensures t == Green <==> status == "connected"
    ensures t == Red <==> status == "error"
    ensures t == Yellow <==> status == "testing"
    ensures t == Gray <==> status !in {"connected", "error", "testing"}
  {
    match status
    case "connected" => Green
    case "error" => Red
    case "testing" => Yellow
    case "disconnected" => Gray
    case _ => Gray
  }

  /** `getHealthColor`: the thresholds 95 and 80 split the health score into
      three bands. */
  function HealthTone(health: real): (t: Tone)
    ensures t in {Green, Yellow, Red}
    ensures t == Green <==> health >= 95.0
    ensures t == Yellow <==> 80.0 <= health < 95.0
    ensures t == Red <==> health < 80.0
  {
    if health >= 95.0 then Green
    else if health >= 80.0 then Yellow
    else Red
  }

  /** Green, yellow, red as 2, 1, 0. */
  function HealthRank(t: Tone): nat {
    if t == Green then 2 else if t == Yellow then 1 else 0
  }

  /** A healthier connection never gets a worse colour. */
  lemma HealthToneMonotone(h1: real, h2: real)
    requires h1 <= h2
    ensures HealthRank(HealthTone(h1)) <= HealthRank(HealthTone(h2))
  {
  }

  /** The red banner is shown for an operator in status 'error' that has a
      non-empty error message. */
  function ErrorBanner(o: Operator): (banner: Option<string>)
    ensures banner.Some? <==> o.status == "error" && StrTruthy(o.errorMessage)
    ensures banner.Some? ==> banner == o.errorMessage && banner.value != ""
  {
    if o.status == "error" && StrTruthy(o.errorMessage) then o.errorMessage else None
  }

  /** The commands of an operator's menu; each only writes a console line. */
  datatype Command = TestConnection | SyncData | RegenerateCredentials

  /** `testConnection`, `syncData`, `regenerateCredentials`. */
  function CommandLog(command: Command, cpoId: string): (n: Notice)
    ensures n.ConsoleLog?
  {
    ConsoleLog(
      match command
      case TestConnection => "Testing connection for CPO " + cpoId
      case SyncData => "Syncing data for CPO " + cpoId
      case RegenerateCredentials => "Regenerating credentials for CPO " + cpoId)
  }

  /** The console line tells which command ran on which operator. */
  lemma CommandLogInjective(c1: Command, id1: string, c2: Command, id2: string)
    requires CommandLog(c1, id1) == CommandLog(c2, id2)
    ensures c1 == c2 && id1 == id2
  {
    var t1, t2 := CommandLog(c1, id1).text, CommandLog(c2, id2).text;
    assert t1[0] == t2[0];
    assert c1 == c2;
    match c1
    case TestConnection => PrefixCancel("Testing connection for CPO ", id1, id2);
    case SyncData => PrefixCancel("Syncing data for CPO ", id1, id2);
    case RegenerateCredentials => PrefixCancel("Regenerating credentials for CPO ", id1, id2);
  }
}
