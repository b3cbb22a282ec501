/** The user-management view (src/components/UserManagement.tsx): the
    filtered user list, the action menu and its suspend/activate entry, the
    avatar initials and the summary cards. */
module Users {
  import opened Optional
  import opened JsText
  import opened Collections
  import opened Notices
  import opened ViewState

  datatype User = User(
    id: string,
    name: string,
    email: string,
    phone: string,
    status: string,
    membershipTier: string,
    totalSessions: int)

  /** Name or email contains the search ignoring case, or the phone number
      contains the search exactly as typed. */
  predicate SearchMatches(u: User, search: string) {
    IncludesIgnoringCase(u.name, search)
    || IncludesIgnoringCase(u.email, search)
    || Includes(u.phone, search)
  }

  /** The `filteredUsers` predicate. */
  predicate UserMatches(u: User, search: string, statusFilter: string, tierFilter: string) {
    SearchMatches(u, search)
    && MatchesFilter(statusFilter, u.status)
    && MatchesFilter(tierFilter, u.membershipTier)
  }

  /** `filteredUsers`: the users shown and counted in the list header. */
  function FilteredUsers(users: seq<User>, search: string, statusFilter: string, tierFilter: string): (r: seq<User>)
    ensures IsSubsequence(r, users)
    ensures forall u :: u in r <==> u in users && UserMatches(u, search, statusFilter, tierFilter)
  {
    FilterIsSubsequence(users, (u: User) => UserMatches(u, search, statusFilter, tierFilter));
    Filter(users, (u: User) => UserMatches(u, search, statusFilter, tierFilter))
  }

  /** With an empty search and both dropdowns at 'all' every user is shown,
      in the original order. */
  lemma NoCriteriaShowsAllUsers(users: seq<User>)
    ensures FilteredUsers(users, "", "all", "all") == users
  {
    forall u | u in users ensures UserMatches(u, "", "all", "all") {
      IncludesEmpty(ToLower(u.name));
    }
    FilterKeepsAll(users, (u: User) => UserMatches(u, "", "all", "all"));
  }

  lemma FilteredUsersIdempotent(users: seq<User>, search: string, statusFilter: string, tierFilter: string)
    ensures var once := FilteredUsers(users, search, statusFilter, tierFilter);
            FilteredUsers(once, search, statusFilter, tierFilter) == once
  {
    FilterIdempotent(users, (u: User) => UserMatches(u, search, statusFilter, tierFilter));
  }

  /** The phone number is not lower-cased: a user whose name and email do
      not match is missed when the search differs from the phone text only
      in case. */
  lemma PhoneSearchIsCaseSensitive()
    ensures var u := User("U9", "Ann", "a@b", "ext", "active", "basic", 0);
            UserMatches(u, "ext", "all", "all") && !UserMatches(u, "EXT", "all", "all")
  {
    var u := User("U9", "Ann", "a@b", "ext", "active", "basic", 0);
    assert OccursAt(u.phone, "ext", 0);
    assert ToLower("Ann") == "ann";
    assert ToLower("a@b") == "a@b";
    assert ToLower("EXT") == "ext";
    assert "ext" != "EXT" by { assert "ext"[0] != "EXT"[0]; }
    assert "ann" != "ext" by { assert "ann"[0] != "ext"[0]; }
    assert "a@b" != "ext" by { assert "a@b"[0] != "ext"[0]; }
    assert forall i :: !OccursAt(u.phone, "EXT", i);
    assert forall i :: !OccursAt("ann", "ext", i);
    assert forall i :: !OccursAt("a@b", "ext", i);
  }

  /** What `handleUserAction` does: an unknown id is ignored, 'view' opens
      the details, every other action only notifies. */
  function UserAction(users: seq<User>, userId: string, action: string): (o: Outcome<User>)
    ensures Find(users, (u: User) => u.id == userId).None? <==> o == Ignored
    ensures o.ShowDetails? <==> action == "view" && Find(users, (u: User) => u.id == userId).Some?
    ensures Find(users, (u: User) => u.id == userId).Some? && action != "view" ==>
      o.Notify? && (o.notice.Toast? <==> action in {"edit", "contact", "suspend", "activate", "reward", "delete"})
    ensures o.ShowDetails? ==> o.record == Find(users, (u: User) => u.id == userId).value
    ensures o.ShowDetails? ==> o.record in users && o.record.id == userId
  {
    match Find(users, (u: User) => u.id == userId)
    case None => Ignored
    case Some(u) =>
      match action
      case "view" => ShowDetails(u)
      case "edit" => Notify(Toast(Info, "Editing user: " + u.name))
      case "contact" => Notify(Toast(Info, "Contacting " + u.name + " via " + u.email))
      case "suspend" => Notify(Toast(Warning, "Suspending user: " + u.name))
      case "activate" => Notify(Toast(Success, "Activating user: " + u.name))
      case "reward" => Notify(Toast(Success, "Sending reward to " + u.name))
      case "delete" => Notify(Toast(Error, "Deletion request for user: " + u.name))
      case _ => Notify(ConsoleLog(action + " action for user " + userId))
  }

  /** `handleUserAction` on the view's state. */
  method HandleUserAction(view: MasterDetail<User>, userId: string, action: string) returns (n: Option<Notice>)
    requires view.Valid()
    modifies view
    ensures view.Valid()
    ensures var o := UserAction(view.records, userId, action);
            (o.ShowDetails? ==> view.selected == Some(o.record) && view.isDetailsOpen)
            && (!o.ShowDetails? ==> view.selected == old(view.selected) && view.isDetailsOpen == old(view.isDetailsOpen))
            && n == (if o.Notify? then Some(o.notice) else None)
  {
    n := view.Apply(UserAction(view.records, userId, action));
  }

  /** The status entry of a user's menu: 'suspend' for an active user,
      'activate' for any other status. */
  function StatusMenuAction(u: User): (action: string)
    ensures action == "suspend" <==> u.status == "active"
    ensures action == "activate" <==> u.status != "active"
  {
    if u.status == "active" then "suspend" else "activate"
  }

  /** Choosing the offered status entry only produces a toast: a warning
      for an active user, a success toast otherwise. */
  lemma StatusMenuActionNotifies(users: seq<User>, u: User)
    requires Find(users, (x: User) => x.id == u.id) == Some(u)
    ensures UserAction(users, u.id, StatusMenuAction(u))
            == Notify(if u.status == "active" then Toast(Warning, "Suspending user: " + u.name)
                      else Toast(Success, "Activating user: " + u.name))
  {
  }

  /** The first character of each segment of `name.split(' ')`, empty
      segments contributing nothing (`n[0]` is undefined there and `join`
      renders undefined as ""). */
  function FirstChars(parts: seq<string>): string
    decreases |parts|
  {
    if parts == [] then ""
    else (if parts[0] == "" then "" else [parts[0][0]]) + FirstChars(parts[1..])
  }

  /** `getInitials`: `name.split(' ').map(n => n[0]).join('').toUpperCase()`.
      At most one character per character of the name, and neither a space
      nor a lower-case letter among them; `InitialsAreWordStarts` says which
      characters they are. */
  function Initials(name: string): (r: string)
    ensures |r| <= |name|
    ensures forall i :: 0 <= i < |r| ==> r[i] != ' ' && !('a' <= r[i] <= 'z')
  {
    FirstCharsSplitFrom(name, "");
    var starts := FirstChars(Split(name, ' '));
    assert forall i :: 0 <= i < |starts| ==> starts[i] in starts && UpperChar(starts[i]) != ' ';
    ToUpper(starts)
  }

  /** Reference definition: the characters of `s` that begin a word, a word
      beginning at a non-space that is first or follows a space.
      `atStart` says whether the previous character was a space (or there
      was none). */
  function WordStarts(s: string, atStart: bool): (r: string)
    ensures forall c :: c in r ==> c in s && c != ' '
    ensures |r| <= |s|
    decreases |s|
  {
    if s == [] then ""
    else (if atStart && s[0] != ' ' then [s[0]] else "") + WordStarts(s[1..], s[0] == ' ')
  }

  lemma {:induction false} FirstCharsAppend(a: seq<string>, b: seq<string>)
    ensures FirstChars(a + b) == FirstChars(a) + FirstChars(b)
    decreases |a|
  {
    if a == [] {
      assert a + b == b;
    } else {
      FirstCharsAppend(a[1..], b);
      var head := if a[0] == "" then "" else [a[0][0]];
      assert (a + b)[0] == a[0];
      assert (a + b)[1..] == a[1..] + b;
      assert FirstChars(a + b) == head + FirstChars(a[1..] + b);
      assert FirstChars(a) == head + FirstChars(a[1..]);
    }
  }

  lemma {:induction false} FirstCharsSplitFrom(s: string, cur: string)
    ensures FirstChars(SplitFrom(s, ' ', cur))
            == if cur == "" then WordStarts(s, true) else [cur[0]] + WordStarts(s, false)
    decreases |s|
  {
    var head := if cur == "" then "" else [cur[0]];
    assert FirstChars([cur]) == head + FirstChars([]);
    if s == [] {
    } else if s[0] == ' ' {
      var rest := SplitFrom(s[1..], ' ', "");
      assert SplitFrom(s, ' ', cur) == [cur] + rest;
      FirstCharsSplitFrom(s[1..], "");
      FirstCharsAppend([cur], rest);
      assert WordStarts(s, true) == WordStarts(s[1..], true);
      assert WordStarts(s, false) == WordStarts(s[1..], true);
    } else {
      var grown := cur + [s[0]];
      assert SplitFrom(s, ' ', cur) == SplitFrom(s[1..], ' ', grown);
      FirstCharsSplitFrom(s[1..], grown);
      assert grown[0] == if cur == "" then s[0] else cur[0];
      assert WordStarts(s, true) == [s[0]] + WordStarts(s[1..], false);
      assert WordStarts(s, false) == WordStarts(s[1..], false);
    }
  }

  /** The initials are the upper-cased first characters of the words of
      the name, in order. */
  lemma InitialsAreWordStarts(name: string)
    ensures Initials(name) == ToUpper(WordStarts(name, true))
  {
    FirstCharsSplitFrom(name, "");
  }

  /** For example, "Jo Li" gives "JL". */
  lemma InitialsExample()
    ensures Initials("Jo Li") == "JL"
  {
    InitialsAreWordStarts("Jo Li");
    var s := "Jo Li";
    assert s[1..] == "o Li" && s[1..][1..] == " Li" && s[1..][1..][1..] == "Li";
    assert WordStarts("i", false) == "";
    assert WordStarts("Li", true) == "L";
    assert WordStarts(" Li", false) == "L";
    assert WordStarts("o Li", false) == "L";
    assert WordStarts(s, true) == "JL";
    assert UpperChar('J') == 'J' && UpperChar('L') == 'L';
    assert ToUpper("JL") == "JL";
  }

  /** The 'Active Users' card. */
  function ActiveUserCount(users: seq<User>): (n: nat)
    ensures n <= |users|
  {
    |Filter(users, (u: User) => u.status == "active")|
  }

  /** The 'Avg. Sessions' card: `Math.round(total / users.length)`, with no
      value (NaN) when there are no users. `Math.round` rounds halves up. */
  function AverageSessions(users: seq<User>): (r: Option<int>)
    ensures r.Some? <==> |users| > 0
    ensures r.Some? ==>
      var total, n := SumOf(users, (u: User) => u.totalSessions), |users|;
      2 * r.value * n - n <= 2 * total < 2 * r.value * n + n
  {
    if |users| == 0 then None
    else
      var total, n := SumOf(users, (u: User) => u.totalSessions), |users|;
      Some((2 * total + n) / (2 * n))
  }

  /** The card shows the nearest integer to the mean, so it is within half
      a session of it. */
  lemma AverageSessionsIsNearest(users: seq<User>)
    requires |users| > 0
    ensures var total, n := SumOf(users, (u: User) => u.totalSessions), |users|;
            var a := AverageSessions(users).value;
            -n <= 2 * (a * n - total) <= n
  {
  }
}
