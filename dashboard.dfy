/** The dashboard (src/components/DashboardOverview.tsx): the live-session
    counter that a timer moves by a random step and clamps to [300, 400],
    the truncated session and activity lists, the session and activity
    action handlers and menus, the severity badge, and the two dialogs whose
    open state is the nullable selection itself. */
module Dashboard {
  import opened Optional
  import opened JsText
  import opened Collections
  import opened Notices

  const MinSessions: int := 300
  const MaxSessions: int := 400
  const InitialSessions: int := 342

  /** `Math.max(300, Math.min(400, prev + change))`. */
  function ClampSessions(prev: int, change: int): (n: int)
    ensures MinSessions <= n <= MaxSessions
    ensures MinSessions <= prev + change <= MaxSessions ==> n == prev + change
    ensures prev + change < MinSessions ==> n == MinSessions
    ensures prev + change > MaxSessions ==> n == MaxSessions
  {
    var upper := if MaxSessions < prev + change then MaxSessions else prev + change;
    if MinSessions < upper then upper else MinSessions
  }

  /** `Math.floor(Math.random() * 5) - 2` for a draw `u` in [0, 1). */
  function TickChange(u: real): (change: int)
    requires 0.0 <= u < 1.0
    ensures -2 <= change <= 2
    ensures ((change + 2) as real) <= u * 5.0 < ((change + 3) as real)
  {
    (u * 5.0).Floor - 2
  }

  /** A step from a value in range moves the counter by at most two. */
  lemma ClampStepBound(prev: int, change: int)
    requires MinSessions <= prev <= MaxSessions && -2 <= change <= 2
    ensures -2 <= ClampSessions(prev, change) - prev <= 2
    ensures change >= 0 ==> ClampSessions(prev, change) >= prev
    ensures change <= 0 ==> ClampSessions(prev, change) <= prev
  {
  }

  /** The counter after a run of ticks with the given changes. */
  function SessionsAfter(start: int, changes: seq<int>): (n: int)
    ensures changes != [] ==> MinSessions <= n <= MaxSessions
    ensures changes == [] ==> n == start
    decreases |changes|
  {
    if changes == [] then start
    else SessionsAfter(ClampSessions(start, changes[0]), changes[1..])
  }

  /** However many ticks have passed, with changes in [-2, 2], a counter
      that started in [300, 400] (342 does) is still in it, and has moved by
      at most two per tick. */
  lemma {:induction false} SessionsAfterStaysInRange(start: int, changes: seq<int>)
    requires MinSessions <= start <= MaxSessions
    requires forall i :: 0 <= i < |changes| ==> -2 <= changes[i] <= 2
    ensures MinSessions <= SessionsAfter(start, changes) <= MaxSessions
    ensures start - 2 * |changes| <= SessionsAfter(start, changes) <= start + 2 * |changes|
    decreases |changes|
  {
    if changes != [] {
      ClampStepBound(start, changes[0]);
      SessionsAfterStaysInRange(ClampSessions(start, changes[0]), changes[1..]);
    }
  }

  /** The `activeSessions` state and its interval tick. */
  class LiveSessionCounter {
    var activeSessions: int

    ghost predicate Valid()
      reads this
    {
      MinSessions <= activeSessions <= MaxSessions
    }

    constructor ()
      ensures activeSessions == InitialSessions && Valid()
    {
      activeSessions := InitialSessions;
    }

    /** One tick of the timer with the random draw `u`. */
    method Tick(u: real)
      requires Valid() && 0.0 <= u < 1.0
      modifies this
      ensures Valid()
      ensures activeSessions == ClampSessions(old(activeSessions), TickChange(u))
      ensures -2 <= activeSessions - old(activeSessions) <= 2
    {
      ClampStepBound(activeSessions, TickChange(u));
      activeSessions := ClampSessions(activeSessions, TickChange(u));
    }
  }

  datatype LiveSession = LiveSession(id: string, user: string, status: string)

  datatype Activity = Activity(id: int, action: string, severity: string)

  /** The sessions panel lists only the first four sessions. */
  function VisibleSessions(sessions: seq<LiveSession>): (r: seq<LiveSession>)
    ensures |r| <= 4 && |r| <= |sessions| && r == sessions[..|r|]
    ensures |sessions| <= 4 ==> r == sessions
  {
    Take(sessions, 4)
  }

  /** The activity panel lists only the first three items. */
  function VisibleActivities(activities: seq<Activity>): (r: seq<Activity>)
    ensures |r| <= 3 && |r| <= |activities| && r == activities[..|r|]
    ensures |activities| <= 3 ==> r == activities
  {
    Take(activities, 3)
  }

  /** `handleSessionAction`: an unknown id is ignored; 'contact', 'stop' and
      'restart' raise toasts, anything else a console line. */
  function SessionAction(sessions: seq<LiveSession>, sessionId: string, action: string): (o: Outcome<LiveSession>)
    ensures Find(sessions, (s: LiveSession) => s.id == sessionId).None? <==> o == Ignored
    ensures !o.ShowDetails?
    ensures o.Notify? ==> (o.notice.Toast? <==> action in {"contact", "stop", "restart"})
  {
    match Find(sessions, (s: LiveSession) => s.id == sessionId)
    case None => Ignored
    case Some(s) =>
      match action
      case "contact" => Notify(Toast(Info, "Contacting " + s.user + "..."))
      case "stop" => Notify(Toast(Warning, "Stopping session " + sessionId))
      case "restart" => Notify(Toast(Info, "Restarting session " + sessionId))
      case _ => Notify(ConsoleLog(action + " session " + sessionId))
  }

  /** `handleActivityAction`, keyed by the activity's numeric id. */
  function ActivityAction(activities: seq<Activity>, activityId: int, action: string): (o: Outcome<Activity>)
    ensures Find(activities, (a: Activity) => a.id == activityId).None? <==> o == Ignored
    ensures !o.ShowDetails?
    ensures o.Notify? ==> (o.notice.Toast? <==> action in {"acknowledge", "escalate"})
  {
    match Find(activities, (a: Activity) => a.id == activityId)
    case None => Ignored
    case Some(_) =>
      match action
      case "acknowledge" => Notify(Toast(Success, "Activity marked as resolved"))
      case "escalate" => Notify(Toast(Info, "Issue escalated to support team"))
      case _ => Notify(ConsoleLog(action + " activity " + IntToString(activityId)))
  }

  datatype MenuItem = ViewDetails | Act(action: string)

  /** A session's menu: 'Stop Session' only while it is charging. */
  function SessionMenu(s: LiveSession): (items: seq<MenuItem>)
    ensures ViewDetails in items && Act("contact") in items
    ensures Act("stop") in items <==> s.status == "charging"
  {
    [ViewDetails, Act("contact")] + if s.status == "charging" then [Act("stop")] else []
  }

  /** Every action a session's menu offers ends in a toast. */
  lemma SessionMenuRaisesToasts(sessions: seq<LiveSession>, s: LiveSession)
    requires Find(sessions, (x: LiveSession) => x.id == s.id) == Some(s)
    ensures forall item :: item in SessionMenu(s) && item.Act? ==>
              var o := SessionAction(sessions, s.id, item.action);
              o.Notify? && o.notice.Toast?
  {
    forall item | item in SessionMenu(s) && item.Act?
      ensures SessionAction(sessions, s.id, item.action).Notify?
    {
      assert item.action in {"contact", "stop"};
    }
  }

  /** Every activity's menu: View Details and Mark Resolved, which sends
      'acknowledge'. */
  const ActivityMenu: seq<MenuItem> := [ViewDetails, Act("acknowledge")]

  /** Mark Resolved on a listed activity always raises the success toast. */
  lemma MarkResolvedToast(activities: seq<Activity>, a: Activity)
    requires Find(activities, (x: Activity) => x.id == a.id) == Some(a)
    ensures ActivityAction(activities, a.id, ActivityMenu[1].action)
            == Notify(Toast(Success, "Activity marked as resolved"))
  {
  }

  /** The severity badge of an activity: shown, with the severity as its
      text, for every severity but 'low'. */
  function SeverityBadge(a: Activity): (badge: Option<string>)
    ensures badge.None? <==> a.severity == "low"
    ensures badge.Some? ==> badge.value == a.severity
  {
    if a.severity != "low" then Some(a.severity) else None
  }
}
