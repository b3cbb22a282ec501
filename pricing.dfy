/** The pricing view (src/components/PricingTariffs.tsx): the filtered tariff
    list, the tariff and campaign action handlers and the status entry of
    their menus, the tariff card's labels and average, and the capped usage
    bar of a promotional campaign. The tariff dialog and the campaign dialog
    each have their own `MasterDetail` state. */
module Pricing {
  import opened Optional
  import opened JsText
  import opened Collections
  import opened Display
  import opened Notices

  datatype Rate = Rate(period: string, rate: real)

  datatype Tariff = Tariff(
    id: string,
    name: string,
    kind: string,
    connectorType: string,
    timeBasedRates: Option<seq<Rate>>,
    applicableStations: seq<string>,
    status: string,
    usageCount: int,
    totalRevenue: real)

  datatype Promotion = Promotion(
    id: string,
    name: string,
    kind: string,
    value: real,
    valueType: string,
    targetGroup: string,
    maxUsage: nat,
    currentUsage: nat,
    status: string)

  /** Name or connector type contains the search, ignoring case. */
  predicate SearchMatches(t: Tariff, search: string) {
    IncludesIgnoringCase(t.name, search) || IncludesIgnoringCase(t.connectorType, search)
  }

  /** The `filteredTariffs` predicate. */
  predicate TariffMatches(t: Tariff, search: string, typeFilter: string, statusFilter: string) {
    SearchMatches(t, search)
    && MatchesFilter(typeFilter, t.kind)
    && MatchesFilter(statusFilter, t.status)
  }

  function FilteredTariffs(tariffs: seq<Tariff>, search: string, typeFilter: string, statusFilter: string): (r: seq<Tariff>)
    ensures IsSubsequence(r, tariffs)
    ensures forall t :: t in r <==> t in tariffs && TariffMatches(t, search, typeFilter, statusFilter)
  {
    FilterIsSubsequence(tariffs, (t: Tariff) => TariffMatches(t, search, typeFilter, statusFilter));
    Filter(tariffs, (t: Tariff) => TariffMatches(t, search, typeFilter, statusFilter))
  }

  lemma NoCriteriaShowsAllTariffs(tariffs: seq<Tariff>)
    ensures FilteredTariffs(tariffs, "", "all", "all") == tariffs
  {
    forall t | t in tariffs ensures TariffMatches(t, "", "all", "all") {
      IncludesEmpty(ToLower(t.name));
    }
    FilterKeepsAll(tariffs, (t: Tariff) => TariffMatches(t, "", "all", "all"));
  }

  lemma FilteredTariffsIdempotent(tariffs: seq<Tariff>, search: string, typeFilter: string, statusFilter: string)
    ensures var once := FilteredTariffs(tariffs, search, typeFilter, statusFilter);
            FilteredTariffs(once, search, typeFilter, statusFilter) == once
  {
    FilterIdempotent(tariffs, (t: Tariff) => TariffMatches(t, search, typeFilter, statusFilter));
  }

  /** `getStatusColor` of tariffs and campaigns. */
  function StatusTone(status: string): (c: Tone)
    ensures c == Green <==> status == "active"
    ensures c == Blue <==> status == "scheduled"
    ensures c == Red <==> status == "expired"
    ensures c == Gray <==> status !in {"active", "scheduled", "expired"}
  {
    match status
    case "active" => Green
    case "draft" => Gray
    case "scheduled" => Blue
    case "expired" => Red
    case _ => Gray
  }

  /** `getTypeColor` of tariffs. */
  function TypeTone(kind: string): (c: Tone)
    ensures c == Blue <==> kind == "connector_based"
    ensures c == Purple <==> kind == "station_specific"
    ensures c == Orange <==> kind == "time_based"
    ensures c == Green <==> kind == "user_group"
    ensures c == Red <==> kind == "dynamic"
    ensures c == Gray <==> kind !in {"connector_based", "station_specific", "time_based", "user_group", "dynamic"}
  {
    match kind
    case "connector_based" => Blue
    case "station_specific" => Purple
    case "time_based" => Orange
    case "user_group" => Green
    case "dynamic" => Red
    case _ => Gray
  }

  /** `handleTariffAction`: an unknown id is ignored; no action opens a
      dialog; the five menu actions raise a toast, anything else a console
      line. */
  function TariffAction(tariffs: seq<Tariff>, tariffId: string, action: string): (o: Outcome<Tariff>)
    ensures Find(tariffs, (t: Tariff) => t.id == tariffId).None? <==> o == Ignored
    ensures !o.ShowDetails?
    ensures o.Notify? ==>
      (o.notice.Toast? <==> action in {"edit", "duplicate", "activate", "deactivate", "delete"})
  {
    match Find(tariffs, (t: Tariff) => t.id == tariffId)
    case None => Ignored
    case Some(t) =>
      match action
      case "edit" => Notify(Toast(Info, "Editing tariff: " + t.name))
      case "duplicate" => Notify(Toast(Success, "Duplicated tariff: " + t.name))
      case "activate" => Notify(Toast(Success, "Activated tariff: " + t.name))
      case "deactivate" => Notify(Toast(Warning, "Deactivated tariff: " + t.name))
      case "delete" => Notify(Toast(Error, "Deleted tariff: " + t.name))
      case _ => Notify(ConsoleLog(action + " tariff " + tariffId))
  }

  /** `handlePromoAction`: like the tariff handler, with the campaign's
      four actions; a campaign cannot be deleted from its menu. */
  function PromotionAction(promotions: seq<Promotion>, promoId: string, action: string): (o: Outcome<Promotion>)
    ensures Find(promotions, (p: Promotion) => p.id == promoId).None? <==> o == Ignored
    ensures !o.ShowDetails?
    ensures o.Notify? ==>
      (o.notice.Toast? <==> action in {"edit", "duplicate", "activate", "pause"})
  {
    match Find(promotions, (p: Promotion) => p.id == promoId)
    case None => Ignored
    case Some(p) =>
      match action
      case "edit" => Notify(Toast(Info, "Editing campaign: " + p.name))
      case "duplicate" => Notify(Toast(Success, "Duplicated campaign: " + p.name))
      case "activate" => Notify(Toast(Success, "Activated campaign: " + p.name))
      case "pause" => Notify(Toast(Warning, "Paused campaign: " + p.name))
      case _ => Notify(ConsoleLog(action + " promotion " + promoId))
  }

  /** An entry of a tariff or campaign menu: open the details, or call the
      handler with an action. */
  datatype MenuItem = ViewDetails | Act(action: string)

  /** A tariff's menu: 'deactivate' for an active tariff, 'activate' for any
      other status. */
  function TariffMenu(t: Tariff): (items: seq<MenuItem>)
    ensures ViewDetails in items && Act("edit") in items && Act("duplicate") in items && Act("delete") in items
    ensures Act("deactivate") in items <==> t.status == "active"
    ensures Act("activate") in items <==> t.status != "active"
  {
    [ViewDetails, Act("edit"), Act("duplicate"),
     Act(if t.status == "active" then "deactivate" else "activate"),
     Act("delete")]
  }

  /** A campaign's menu: 'pause' for an active campaign, 'activate' for any
      other status. */
  function PromotionMenu(p: Promotion): (items: seq<MenuItem>)
    ensures ViewDetails in items && Act("edit") in items && Act("duplicate") in items
    ensures Act("pause") in items <==> p.status == "active"
    ensures Act("activate") in items <==> p.status != "active"
    ensures Act("delete") !in items
  {
    [ViewDetails, Act("edit"), Act("duplicate"),
     Act(if p.status == "active" then "pause" else "activate")]
  }

  /** Every action a tariff's menu offers ends in a toast about that
      tariff, never in the console fallback. */
  lemma TariffMenuRaisesToasts(tariffs: seq<Tariff>, t: Tariff)
    requires Find(tariffs, (x: Tariff) => x.id == t.id) == Some(t)
    ensures forall item :: item in TariffMenu(t) && item.Act? ==>
              var o := TariffAction(tariffs, t.id, item.action);
              o.Notify? && o.notice.Toast?
  {
    forall item | item in TariffMenu(t) && item.Act?
      ensures TariffAction(tariffs, t.id, item.action).Notify?
    {
      assert item.action in {"edit", "duplicate", "activate", "deactivate", "delete"};
    }
  }

  lemma PromotionMenuRaisesToasts(promotions: seq<Promotion>, p: Promotion)
    requires Find(promotions, (x: Promotion) => x.id == p.id) == Some(p)
    ensures forall item :: item in PromotionMenu(p) && item.Act? ==>
              var o := PromotionAction(promotions, p.id, item.action);
              o.Notify? && o.notice.Toast?
  {
    forall item | item in PromotionMenu(p) && item.Act?
      ensures PromotionAction(promotions, p.id, item.action).Notify?
    {
      assert item.action in {"edit", "duplicate", "activate", "pause"};
    }
  }

  /** The 'Avg Value' of a tariff card, guarded against no usage. */
  function AverageValue(t: Tariff): (a: Average)
    ensures a.Quotient? <==> t.usageCount > 0
    ensures a.Quotient? ==> a.value * (t.usageCount as real) == t.totalRevenue
  {
    GuardedAverage(t.totalRevenue, t.usageCount)
  }

  /** The station count of a tariff card. */
  datatype StationLabel = AllStations | Stations(count: nat)

  /** 'All Stations' only for the one-element list ['All Stations'];
      otherwise the length of the list, '<n> stations'. */
  function StationsLabel(stations: seq<string>): (l: StationLabel)
    ensures l == AllStations <==> stations == ["All Stations"]
    ensures l.Stations? ==> l.count == |stations|
  {
    if |stations| == 1 && stations[0] == "All Stations" then AllStations
    else Stations(|stations|)
  }

  /** 'All Stations' listed beside another station is counted like any
      station name. */
  lemma AllStationsAmongOthers(other: string)
    ensures StationsLabel(["All Stations", other]) == Stations(2)
  {
  }

  /** The 'Time-based Rates' block of a tariff card: present only when the
      tariff has more than one rate. */
  function TimeRatesBlock(t: Tariff): (r: seq<Rate>)
    ensures r != [] <==> t.timeBasedRates.Some? && |t.timeBasedRates.value| > 1
    ensures r != [] ==> r == t.timeBasedRates.value
  {
    if t.timeBasedRates.Some? && |t.timeBasedRates.value| > 1 then t.timeBasedRates.value else []
  }

  /** The type badge of a tariff and the target group of a campaign:
      `replace('_', ' ')`. */
  function Humanize(s: string): (r: string)
    ensures |r| == |s|
    ensures '_' in s ==> CountChar(r, '_') == CountChar(s, '_') - 1
    ensures '_' !in s ==> r == s
  {
    ReplaceFirstCount(s, '_', ' ');
    ReplaceFirst(s, '_', ' ')
  }

  /** A tariff type with two underscores keeps its second one. */
  lemma HumanizeKeepsSecondUnderscore()
    ensures Humanize("a_b_c") == "a b_c"
  {
    assert IndexOf("a_b_c", '_') == 1 by {
      assert "a_b_c"[1] == '_' && "a_b_c"[..1] == "a";
    }
    assert "a_b_c"[..1] + [' '] + "a_b_c"[2..] == "a b_c";
  }

  /** The width of the usage bar of a campaign card, in percent. With no
      maximum, `currentUsage / maxUsage` is Infinity (capped to 100) or,
      for 0 / 0, NaN. */
  datatype Width = Percent(value: real) | NotANumber

  /** Arithmetic step of `UsageBarWidth`'s proof: scaling by a positive
      number keeps the order with 1. */
  lemma ScaleAgainstOne(q: real, m: real)
    requires m > 0.0
    ensures q > 1.0 ==> q * m > m
    ensures q < 1.0 ==> q * m < m
  {
    if q > 1.0 {
      PositiveProduct(q - 1.0, m);
      assert (q - 1.0) * m == q * m - m;
    } else if q < 1.0 {
      PositiveProduct(1.0 - q, m);
      assert (1.0 - q) * m == m - q * m;
    }
  }

  /** Arithmetic step of `ScaleAgainstOne`: a product of positives is
      positive. */
  lemma PositiveProduct(a: real, b: real)
    requires a > 0.0 && b > 0.0
    ensures a * b > 0.0
  {
  }

  /** Arithmetic step of `UsageBarWidth`'s proof: for a positive maximum
      the scaled ratio reaches 100 exactly when the
      usage reaches the maximum, and exceeds it exactly when it exceeds it. */
  lemma RatioAgainstHundred(c: real, m: real)
    requires m > 0.0 && c >= 0.0
    ensures (c / m * 100.0) * m == c * 100.0
    ensures c / m * 100.0 >= 0.0
    ensures c / m * 100.0 > 100.0 <==> c > m
    ensures c / m * 100.0 == 100.0 <==> c == m
  {
    var q := c / m;
    assert q * m == c;
    assert c / m * 100.0 == q * 100.0;
    ScaleAgainstOne(q, m);
    if q > 1.0 {
      assert c > m && q * 100.0 > 100.0;
    } else if q < 1.0 {
      assert c < m && q * 100.0 < 100.0;
    } else {
      assert c == m && q * 100.0 == 100.0;
    }
  }

  /** `Math.min(100, (currentUsage / maxUsage) * 100)`. */
  function UsageBarWidth(p: Promotion): (w: Width)
    ensures w.NotANumber? <==> p.currentUsage == 0 && p.maxUsage == 0
    ensures w.Percent? ==> 0.0 <= w.value <= 100.0
    ensures w.Percent? ==> (w.value == 100.0 <==> p.currentUsage >= p.maxUsage)
    ensures p.maxUsage > 0 && p.currentUsage <= p.maxUsage ==>
              w.Percent? && w.value * (p.maxUsage as real) == (p.currentUsage as real) * 100.0
  {
    if p.maxUsage == 0 then
      (if p.currentUsage == 0 then NotANumber else Percent(100.0))
    else
      var ratio := (p.currentUsage as real) / (p.maxUsage as real) * 100.0;
      RatioAgainstHundred(p.currentUsage as real, p.maxUsage as real);
      if 100.0 < ratio then Percent(100.0) else Percent(ratio)
  }

  /** How a campaign's value is written on its card. */
  function ValueLabel(p: Promotion): (r: seq<Piece>)
    ensures Num(p.value) in r
    ensures p.valueType == "percentage" ==> r == [Num(p.value), Str("%")]
    ensures p.valueType == "fixed" ==> r == [Str("₹"), Num(p.value)]
    ensures p.valueType !in {"percentage", "fixed"} ==> r == [Num(p.value), Str(" " + p.valueType)]
  {
    if p.valueType == "percentage" then [Num(p.value), Str("%")]
    else if p.valueType == "fixed" then [Str("₹"), Num(p.value)]
    else [Num(p.value), Str(" " + p.valueType)]
  }
}
