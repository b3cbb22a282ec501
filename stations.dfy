/** The charging-stations view (src/components/StationManagement.tsx):
    the filtered station list, the action menu, the summary cards and the
    chargers tab of the station details. */
module Stations {
  import opened Optional
  import opened JsText
  import opened Collections
  import opened Display
  import opened Notices
  import opened ViewState

  /** The fields of a station the view's logic reads; the others are only
      displayed. */
  datatype Station = Station(
    id: string,
    name: string,
    location: string,
    address: string,
    status: string,
    totalChargers: int,
    activeChargers: int,
    revenue: int)

  /** Name, location or address contains the search, ignoring case. */
  predicate SearchMatches(s: Station, search: string) {
    IncludesIgnoringCase(s.name, search)
    || IncludesIgnoringCase(s.location, search)
    || IncludesIgnoringCase(s.address, search)
  }

  /** The `filteredStations` predicate. The location dropdown compares
      exactly, unlike the search. */
  predicate StationMatches(s: Station, search: string, statusFilter: string, locationFilter: string) {
    SearchMatches(s, search)
    && MatchesFilter(statusFilter, s.status)
    && MatchesFilter(locationFilter, s.location)
  }

  /** `filteredStations`: the stations shown, and counted in the list
      header, for the current search and dropdowns. */
  function FilteredStations(stations: seq<Station>, search: string, statusFilter: string, locationFilter: string): (r: seq<Station>)
    ensures IsSubsequence(r, stations)
    ensures forall s :: s in r <==> s in stations && StationMatches(s, search, statusFilter, locationFilter)
  {
    FilterIsSubsequence(stations, (s: Station) => StationMatches(s, search, statusFilter, locationFilter));
    Filter(stations, (s: Station) => StationMatches(s, search, statusFilter, locationFilter))
  }

  /** With an empty search and both dropdowns at 'all' every station is
      shown, in the original order. */
  lemma NoCriteriaShowsAllStations(stations: seq<Station>)
    ensures FilteredStations(stations, "", "all", "all") == stations
  {
    forall s | s in stations ensures StationMatches(s, "", "all", "all") {
      IncludesEmpty(ToLower(s.name));
    }
    FilterKeepsAll(stations, (s: Station) => StationMatches(s, "", "all", "all"));
  }

  /** The 'Stations (n)' header counts the filtered list: never more than
      there are stations, and all of them when no criterion is set. */
  function HeaderCount(stations: seq<Station>, search: string, statusFilter: string, locationFilter: string): (n: nat)
    ensures n <= |stations|
    ensures search == "" && statusFilter == "all" && locationFilter == "all" ==> n == |stations|
  {
    NoCriteriaShowsAllStations(stations);
    |FilteredStations(stations, search, statusFilter, locationFilter)|
  }

  /** Applying the same criteria to the filtered list changes nothing. */
  lemma FilteredStationsIdempotent(stations: seq<Station>, search: string, statusFilter: string, locationFilter: string)
    ensures var once := FilteredStations(stations, search, statusFilter, locationFilter);
            FilteredStations(once, search, statusFilter, locationFilter) == once
  {
    FilterIdempotent(stations, (s: Station) => StationMatches(s, search, statusFilter, locationFilter));
  }

  /** The same city typed in lower case is found by the search box but
      rejected by the location dropdown, which compares exactly. */
  lemma LocationFilterIsCaseSensitive()
    ensures var s := Station("ST", "Hub", "Delhi", "CP", "online", 4, 0, 0);
            StationMatches(s, "delhi", "all", "all") && !StationMatches(s, "", "all", "delhi")
  {
    var s := Station("ST", "Hub", "Delhi", "CP", "online", 4, 0, 0);
    assert ToLower("Delhi") == "delhi";
    assert OccursAt(ToLower(s.location), ToLower("delhi"), 0);
  }

  /** With exactly one station in maintenance, the 'maintenance' status
      filter shows just that station and the 'online' filter hides it. */
  lemma MaintenanceFilterScenario(stations: seq<Station>, m: Station)
    requires m in stations && m.status == "maintenance"
    requires forall i, j ::
               (0 <= i < |stations| && 0 <= j < |stations|
                && stations[i].status == "maintenance" && stations[j].status == "maintenance") ==> i == j
    ensures FilteredStations(stations, "", "maintenance", "all") == [m]
    ensures m !in FilteredStations(stations, "", "online", "all")
  {
    var keep := (s: Station) => StationMatches(s, "", "maintenance", "all");
    forall s ensures keep(s) <==> s.status == "maintenance" {
      IncludesEmpty(ToLower(s.name));
    }
    OnlyOneCandidate(stations, m, keep);
  }

  /** When a single position of the list passes the filter, the filtered
      list is the record at that position. */
  lemma {:induction false} OnlyOneCandidate(stations: seq<Station>, m: Station, keep: Station -> bool)
    requires m in stations && keep(m)
    requires forall i, j ::
               (0 <= i < |stations| && 0 <= j < |stations|
                && keep(stations[i]) && keep(stations[j])) ==> i == j
    ensures Filter(stations, keep) == [m]
    decreases |stations|
  {
    var k :| 0 <= k < |stations| && stations[k] == m;
    if k == 0 {
      assert forall s :: s in stations[1..] ==> !keep(s) by {
        assert keep(stations[0]);
        assert forall j :: 1 <= j < |stations| ==> !keep(stations[j]);
        assert forall s :: s in stations[1..] ==> exists j :: 1 <= j < |stations| && stations[j] == s;
      }
      NoneKept(stations[1..], keep);
    } else {
      assert !keep(stations[0]);
      assert stations[1..][k - 1] == m;
      forall i, j | (0 <= i < |stations[1..]| && 0 <= j < |stations[1..]|
          && keep(stations[1..][i]) && keep(stations[1..][j]))
        ensures i == j
      {
        assert stations[1..][i] == stations[i + 1] && stations[1..][j] == stations[j + 1];
      }
      OnlyOneCandidate(stations[1..], m, keep);
    }
  }

  lemma {:induction false} NoneKept(stations: seq<Station>, keep: Station -> bool)
    requires forall s :: s in stations ==> !keep(s)
    ensures Filter(stations, keep) == []
    decreases |stations|
  {
    if stations != [] {
      NoneKept(stations[1..], keep);
    }
  }

  /** What `handleStationAction` does: an unknown id is ignored, 'view'
      opens the details, every other action only notifies. */
  function StationAction(stations: seq<Station>, stationId: string, action: string): (o: Outcome<Station>)
    ensures Find(stations, (s: Station) => s.id == stationId).None? <==> o == Ignored
    ensures o.ShowDetails? <==> action == "view" && Find(stations, (s: Station) => s.id == stationId).Some?
    ensures Find(stations, (s: Station) => s.id == stationId).Some? && action != "view" ==>
      o.Notify? && (o.notice.Toast? <==> action in {"edit", "maintenance", "restart", "contact", "delete"})
    ensures o.ShowDetails? ==> o.record == Find(stations, (s: Station) => s.id == stationId).value
    ensures o.ShowDetails? ==> o.record in stations && o.record.id == stationId
    ensures o.Notify? ==> action != "view"
  {
    match Find(stations, (s: Station) => s.id == stationId)
    case None => Ignored
    case Some(s) =>
      match action
      case "view" => ShowDetails(s)
      case "edit" => Notify(Toast(Info, "Editing station: " + s.name))
      case "maintenance" => Notify(Toast(Warning, "Scheduling maintenance for " + s.name))
      case "restart" => Notify(Toast(Info, "Restarting station: " + s.name))
      case "contact" => Notify(Toast(Info, "Contacting operator for " + s.name))
      case "delete" => Notify(Toast(Error, "Delete request for station: " + s.name))
      case _ => Notify(ConsoleLog(action + " action for station " + stationId))
  }

  /** `handleStationAction` on the view's state. */
  method HandleStationAction(view: MasterDetail<Station>, stationId: string, action: string) returns (n: Option<Notice>)
    requires view.Valid()
    modifies view
    ensures view.Valid()
    ensures var o := StationAction(view.records, stationId, action);
            (o.ShowDetails? ==> view.selected == Some(o.record) && view.isDetailsOpen)
            && (!o.ShowDetails? ==> view.selected == old(view.selected) && view.isDetailsOpen == old(view.isDetailsOpen))
            && n == (if o.Notify? then Some(o.notice) else None)
  {
    n := view.Apply(StationAction(view.records, stationId, action));
  }

  /** The 'Active Chargers' card: the sum of `activeChargers`; with no
      negative counts, no station has more than the card. */
  function ActiveChargersTotal(stations: seq<Station>): (n: int)
    ensures stations == [] ==> n == 0
    ensures (forall s :: s in stations ==> s.activeChargers >= 0) ==>
              n >= 0 && forall s :: s in stations ==> s.activeChargers <= n
  {
    SumOfNonNegative(stations, (s: Station) => s.activeChargers);
    SumOf(stations, (s: Station) => s.activeChargers)
  }

  /** The '... total' line under it: the sum of `totalChargers`. */
  function TotalChargersTotal(stations: seq<Station>): (n: int)
    ensures stations == [] ==> n == 0
    ensures (forall s :: s in stations ==> s.totalChargers >= 0) ==>
              n >= 0 && forall s :: s in stations ==> s.totalChargers <= n
  {
    SumOfNonNegative(stations, (s: Station) => s.totalChargers);
    SumOf(stations, (s: Station) => s.totalChargers)
  }

  /** The 'Total Revenue' card: the sum of `revenue`. */
  function RevenueTotal(stations: seq<Station>): (n: int)
    ensures stations == [] ==> n == 0
    ensures (forall s :: s in stations ==> s.revenue >= 0) ==>
              n >= 0 && forall s :: s in stations ==> s.revenue <= n
  {
    SumOfNonNegative(stations, (s: Station) => s.revenue);
    SumOf(stations, (s: Station) => s.revenue)
  }

  /** The revenue card is the online stations' revenue plus the others'. */
  lemma RevenueCard(stations: seq<Station>)
    ensures RevenueTotal(stations)
            == RevenueTotal(Filter(stations, (s: Station) => s.status == "online"))
             + RevenueTotal(Filter(stations, (s: Station) => s.status != "online"))
  {
    SumOfPartition(stations, (s: Station) => s.status == "online", (s: Station) => s.status != "online", (s: Station) => s.revenue);
  }

  /** The active-chargers card is the online stations' share plus the
      others'; and if each station reports no more active chargers than it
      has (the code never checks this), the card is at most the total. */
  lemma ActiveChargersCard(stations: seq<Station>)
    ensures ActiveChargersTotal(stations)
            == ActiveChargersTotal(Filter(stations, (s: Station) => s.status == "online"))
             + ActiveChargersTotal(Filter(stations, (s: Station) => s.status != "online"))
    ensures (forall s :: s in stations ==> s.activeChargers <= s.totalChargers)
            ==> ActiveChargersTotal(stations) <= TotalChargersTotal(stations)
  {
    SumOfPartition(stations, (s: Station) => s.status == "online", (s: Station) => s.status != "online", (s: Station) => s.activeChargers);
    if forall s :: s in stations ==> s.activeChargers <= s.totalChargers {
      SumOfMonotone(stations, (s: Station) => s.activeChargers, (s: Station) => s.totalChargers);
    }
  }

  /** The badge of one charger slot in the chargers tab. */
  datatype SlotBadge = Active | Offline

  /** `Array.from({ length: totalChargers }, (_, i) => i < activeChargers ?
      'Active' : 'Offline')`; a negative length gives no slots. */
  function ChargerSlots(station: Station): (r: seq<SlotBadge>)
    ensures |r| == if station.totalChargers < 0 then 0 else station.totalChargers
    ensures forall i :: 0 <= i < |r| ==> (r[i] == Active <==> i < station.activeChargers)
  {
    var n := if station.totalChargers < 0 then 0 else station.totalChargers;
    seq(n, i requires 0 <= i < n => if i < station.activeChargers then Active else Offline)
  }

  function CountActive(slots: seq<SlotBadge>): nat
    decreases |slots|
  {
    if slots == [] then 0 else (if slots[0] == Active then 1 else 0) + CountActive(slots[1..])
  }

  /** The tab shows `activeChargers` Active slots, clamped to the number of
      slots, and Offline for the rest. */
  lemma ChargerSlotsActiveCount(station: Station)
    ensures var slots := ChargerSlots(station);
            var a := if station.activeChargers < 0 then 0
                     else if station.activeChargers > |slots| then |slots|
                     else station.activeChargers;
            CountActive(slots) == a
  {
    var slots := ChargerSlots(station);
    ActivePrefixCount(slots, if station.activeChargers < 0 then 0
                             else if station.activeChargers > |slots| then |slots|
                             else station.activeChargers);
  }

  lemma {:induction false} ActivePrefixCount(slots: seq<SlotBadge>, a: nat)
    requires a <= |slots|
    requires forall i :: 0 <= i < |slots| ==> (slots[i] == Active <==> i < a)
    ensures CountActive(slots) == a
    decreases |slots|
  {
    if slots != [] {
      ActivePrefixCount(slots[1..], if a == 0 then 0 else a - 1);
    }
  }
}
