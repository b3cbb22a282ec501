/** The chargers view (src/components/ChargerManagement.tsx): the filtered
    charger list, each charger's action menu and the console commands behind
    it, the active-session panel and the temperature reading. */
module Chargers {
  import opened JsText
  import opened Collections
  import opened Display
  import opened Notices

  datatype Charger = Charger(
    id: string,
    station: string,
    stationId: string,
    location: string,
    status: string,
    temperature: real)

  /** Id, station name or location contains the search, ignoring case. */
  predicate SearchMatches(c: Charger, search: string) {
    IncludesIgnoringCase(c.id, search)
    || IncludesIgnoringCase(c.station, search)
    || IncludesIgnoringCase(c.location, search)
  }

  /** The `filteredChargers` predicate: the station dropdown compares the
      station id, not the displayed station name. */
  predicate ChargerMatches(c: Charger, search: string, statusFilter: string, stationFilter: string) {
    SearchMatches(c, search)
    && MatchesFilter(statusFilter, c.status)
    && MatchesFilter(stationFilter, c.stationId)
  }

  function FilteredChargers(chargers: seq<Charger>, search: string, statusFilter: string, stationFilter: string): (r: seq<Charger>)
    ensures IsSubsequence(r, chargers)
    ensures forall c :: c in r <==> c in chargers && ChargerMatches(c, search, statusFilter, stationFilter)
  {
    FilterIsSubsequence(chargers, (c: Charger) => ChargerMatches(c, search, statusFilter, stationFilter));
    Filter(chargers, (c: Charger) => ChargerMatches(c, search, statusFilter, stationFilter))
  }

  lemma NoCriteriaShowsAllChargers(chargers: seq<Charger>)
    ensures FilteredChargers(chargers, "", "all", "all") == chargers
  {
    forall c | c in chargers ensures ChargerMatches(c, "", "all", "all") {
      IncludesEmpty(ToLower(c.id));
    }
    FilterKeepsAll(chargers, (c: Charger) => ChargerMatches(c, "", "all", "all"));
  }

  lemma FilteredChargersIdempotent(chargers: seq<Charger>, search: string, statusFilter: string, stationFilter: string)
    ensures var once := FilteredChargers(chargers, search, statusFilter, stationFilter);
            FilteredChargers(once, search, statusFilter, stationFilter) == once
  {
    FilterIdempotent(chargers, (c: Charger) => ChargerMatches(c, search, statusFilter, stationFilter));
  }

  /** Narrowing the station dropdown from 'all' to one station id keeps
      exactly the previously shown chargers of that station. */
  lemma StationFilterNarrows(chargers: seq<Charger>, search: string, statusFilter: string, stationId: string)
    requires stationId != "all"
    ensures FilteredChargers(chargers, search, statusFilter, stationId)
            == Filter(FilteredChargers(chargers, search, statusFilter, "all"), (c: Charger) => c.stationId == stationId)
  {
    FilterConjunction(chargers, (c: Charger) => ChargerMatches(c, search, statusFilter, "all"),
                      (c: Charger) => c.stationId == stationId,
                      (c: Charger) => ChargerMatches(c, search, statusFilter, stationId));
  }

  /** `getStatusColor`: one colour per known status, grey otherwise. */
  function StatusTone(status: string): (t: Tone)
    ensures t == Blue <==> status == "charging"
    ensures t == Green <==> status == "available"
    ensures t == Red <==> status == "offline"
    ensures t == Yellow <==> status == "maintenance"
    ensures t == Gray <==> status !in {"charging", "available", "offline", "maintenance"}
  {
    match status
    case "charging" => Blue
    case "available" => Green
    case "offline" => Red
    case "maintenance" => Yellow
    case _ => Gray
  }

  /** The commands a charger's menu can run; each only writes a console
      line. */
  datatype Command = Reset | Enable | Disable | StartMaintenance

  /** The console line of a command: `resetCharger`, `enableCharger`,
      `disableCharger` and `startMaintenance`. */
  function CommandLog(command: Command, chargerId: string): (n: Notice)
    ensures n.ConsoleLog?
  {
    ConsoleLog(
      match command
      case Reset => "Resetting charger " + chargerId
      case Enable => "Enabling charger " + chargerId
      case Disable => "Disabling charger " + chargerId
      case StartMaintenance => "Starting maintenance for charger " + chargerId)
  }

  /** The console line tells which command ran on which charger. */
  lemma CommandLogInjective(c1: Command, id1: string, c2: Command, id2: string)
    requires CommandLog(c1, id1) == CommandLog(c2, id2)
    ensures c1 == c2 && id1 == id2
  {
    var t1, t2 := CommandLog(c1, id1).text, CommandLog(c2, id2).text;
    assert t1[0] == t2[0];
    assert c1 == c2;
    match c1
    case Reset => PrefixCancel("Resetting charger ", id1, id2);
    case Enable => PrefixCancel("Enabling charger ", id1, id2);
    case Disable => PrefixCancel("Disabling charger ", id1, id2);
    case StartMaintenance => PrefixCancel("Starting maintenance for charger ", id1, id2);
  }

  /** An entry of a charger's action menu. 'Edit Configuration' has no
      handler. */
  datatype MenuItem = ViewDetails | EditConfiguration | Run(command: Command)

  /** The action menu of a charger card, in order. */
  function ChargerMenu(c: Charger): (items: seq<MenuItem>)
    ensures |items| == 5
    ensures items[0] == ViewDetails && items[1] == EditConfiguration
    ensures Run(Reset) in items && Run(StartMaintenance) in items
    ensures Run(Disable) in items <==> c.status == "available" || c.status == "charging"
    ensures Run(Enable) in items <==> !(c.status == "available" || c.status == "charging")
  {
    [ViewDetails, EditConfiguration, Run(Reset),
     if c.status == "available" || c.status == "charging" then Run(Disable) else Run(Enable),
     Run(StartMaintenance)]
  }

  /** The 'Active Session' panel is shown exactly for a charging charger. */
  predicate ActiveSessionShown(c: Charger) {
    c.status == "charging"
  }

  /** The temperature in the details' 'System Health' card: red above
      40 °C, green up to and including 40 °C. */
  function TemperatureTone(temperature: real): (t: Tone)
    ensures t == Red <==> temperature > 40.0
    ensures t == Green <==> temperature <= 40.0
  {
    if temperature > 40.0 then Red else Green
  }
}
