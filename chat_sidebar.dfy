/** The chat sidebar: sessions grouped into five buckets by age, the short
    date shown for a session, and the state of a session's context menu.
    Times are milliseconds since the epoch; `now` is the time of rendering. */
module ChatSidebar {
  import opened Wrappers
  import opened Seqs
  import opened Forms

  /** A session as the chat page holds it. */
  datatype ChatSession = ChatSession(id: string, title: string, timestamp: int, lastMessage: Option<string>)

  const Hour := 3600000
  const Day := 24 * Hour

  /** The groups, in the order they are declared and listed. */
  datatype Bucket = Today | Yesterday | LastWeek | LastMonth | Older

  const BucketOrder: seq<Bucket> := [Today, Yesterday, LastWeek, LastMonth, Older]

  /** The heading of a group. */
  function Label(b: Bucket): string {
    match b
    case Today => "Hoy"
    case Yesterday => "Ayer"
    case LastWeek => "Hace 7 d\U{00ED}as"
    case LastMonth => "Hace 30 d\U{00ED}as"
    case Older => "Anteriores"
  }

  /** The position of a group in the listing. */
  function Rank(b: Bucket): (r: nat)
    ensures r < |BucketOrder| && BucketOrder[r] == b
  {
    match b
    case Today => 0
    case Yesterday => 1
    case LastWeek => 2
    case LastMonth => 3
    case Older => 4
  }

  /** The group of a session written at t: under a day old, under two days,
      under seven, under thirty, or older. */
  function BucketOf(now: int, t: int): Bucket {
    var diff := now - t;
    if diff < Day then Today
    else if diff < 2 * Day then Yesterday
    else if diff < 7 * Day then LastWeek
    else if diff < 30 * Day then LastMonth
    else Older
  }

  /** A newer session is never in a later group than an older one. */
  lemma NewerNeverInLaterGroup(now: int, newer: int, older: int)
    requires older <= newer
    ensures Rank(BucketOf(now, newer)) <= Rank(BucketOf(now, older))
  {
  }

  /** The age bounds of each group. */
  lemma BucketBounds(now: int, t: int)
    ensures BucketOf(now, t) == Today <==> now - t < Day
    ensures BucketOf(now, t) == Yesterday <==> Day <= now - t < 2 * Day
    ensures BucketOf(now, t) == LastWeek <==> 2 * Day <= now - t < 7 * Day
    ensures BucketOf(now, t) == LastMonth <==> 7 * Day <= now - t < 30 * Day
    ensures BucketOf(now, t) == Older <==> 30 * Day <= now - t
  {
  }

  function IsIn(now: int, b: Bucket): ChatSession -> bool {
    (s: ChatSession) => BucketOf(now, s.timestamp) == b
  }

  /** The sessions of one group, in the order they were given. */
  function InBucket(sessions: seq<ChatSession>, now: int, b: Bucket): seq<ChatSession> {
    Filter(sessions, IsIn(now, b))
  }

  /** `groupSessionsByDate`: one pass over the sessions, each pushed onto the
      group its age picks. */
  method GroupSessionsByDate(sessions: seq<ChatSession>, now: int) returns (groups: map<Bucket, seq<ChatSession>>)
    ensures forall b: Bucket :: b in groups && groups[b] == InBucket(sessions, now, b)
  {
    groups := map[Today := [], Yesterday := [], LastWeek := [], LastMonth := [], Older := []];
    var i := 0;
    forall c: Bucket ensures c in groups && groups[c] == InBucket(sessions[..0], now, c) {
      assert c.Today? || c.Yesterday? || c.LastWeek? || c.LastMonth? || c.Older?;
    }
    while i < |sessions|
      invariant 0 <= i <= |sessions|
      invariant forall b: Bucket :: b in groups && groups[b] == InBucket(sessions[..i], now, b)
    {
      var session := sessions[i];
      var diffInHours := now - session.timestamp;
      var b;
      if diffInHours < Day {
        b := Today;
      } else if diffInHours < 2 * Day {
        b := Yesterday;
      } else if diffInHours < 7 * Day {
        b := LastWeek;
      } else if diffInHours < 30 * Day {
        b := LastMonth;
      } else {
        b := Older;
      }
      assert b == BucketOf(now, session.timestamp);
      ghost var before := groups;
      groups := groups[b := groups[b] + [session]];
      forall c: Bucket ensures c in groups && groups[c] == InBucket(sessions[..i + 1], now, c) {
        InBucketExtend(sessions, now, i, c);
        if c != b {
          assert groups[c] == before[c];
        }
      }
      i := i + 1;
    }
    assert sessions[..|sessions|] == sessions;
  }

  /** One more session joins the group of its age and no other. */
  lemma InBucketExtend(sessions: seq<ChatSession>, now: int, i: nat, c: Bucket)
    requires i < |sessions|
    ensures BucketOf(now, sessions[i].timestamp) == c ==>
              InBucket(sessions[..i + 1], now, c) == InBucket(sessions[..i], now, c) + [sessions[i]]
    ensures BucketOf(now, sessions[i].timestamp) != c ==>
              InBucket(sessions[..i + 1], now, c) == InBucket(sessions[..i], now, c)
  {
    assert sessions[..i + 1][..i] == sessions[..i];
    FilterLast(sessions[..i + 1], IsIn(now, c));
  }

  /** Every session is in the group of its age and in no other. */
  lemma InExactlyOneGroup(sessions: seq<ChatSession>, now: int, i: nat, b: Bucket)
    requires i < |sessions|
    ensures sessions[i] in InBucket(sessions, now, b) <==> BucketOf(now, sessions[i].timestamp) == b
  {
    var g := InBucket(sessions, now, b);
    if sessions[i] in g {
      var k :| 0 <= k < |g| && g[k] == sessions[i];
      assert IsIn(now, b)(g[k]);
    }
  }

  function GroupSizes(sessions: seq<ChatSession>, now: int): nat {
    |InBucket(sessions, now, Today)| + |InBucket(sessions, now, Yesterday)| + |InBucket(sessions, now, LastWeek)|
      + |InBucket(sessions, now, LastMonth)| + |InBucket(sessions, now, Older)|
  }

  /** The groups together hold as many sessions as were given: none is lost
      and none is counted twice. */
  lemma {:induction false} GroupsPartitionSessions(sessions: seq<ChatSession>, now: int)
    ensures GroupSizes(sessions, now) == |sessions|
    decreases |sessions|
  {
    if |sessions| > 0 {
      var init := sessions[..|sessions| - 1];
      GroupsPartitionSessions(init, now);
      FilterLast(sessions, IsIn(now, Today));
      FilterLast(sessions, IsIn(now, Yesterday));
      FilterLast(sessions, IsIn(now, LastWeek));
      FilterLast(sessions, IsIn(now, LastMonth));
      FilterLast(sessions, IsIn(now, Older));
    }
  }

  /** What the list part of the sidebar shows. */
  datatype Listing = Loading | NoSessions | Groups(groups: seq<(string, seq<ChatSession>)>)

  /** The non-empty groups, headed by their labels, in the declared order. */
  function NonEmptyGroups(sessions: seq<ChatSession>, now: int): seq<(string, seq<ChatSession>)> {
    Filter(Map(BucketOrder, (b: Bucket) => (Label(b), InBucket(sessions, now, b))),
           (g: (string, seq<ChatSession>)) => |g.1| > 0)
  }

  /** The loading note while loading, the empty note when there are no
      sessions, and otherwise the groups that have sessions. */
  function SidebarListing(loading: bool, sessions: seq<ChatSession>, now: int): Listing {
    if loading then Loading
    else if |sessions| == 0 then NoSessions
    else Groups(NonEmptyGroups(sessions, now))
  }

  /** No empty group is shown, and every session is shown under the label of its group. */
  lemma ListingShowsEverySession(sessions: seq<ChatSession>, now: int, i: nat)
    requires i < |sessions|
    ensures SidebarListing(false, sessions, now).Groups?
    ensures forall k :: 0 <= k < |NonEmptyGroups(sessions, now)| ==> |NonEmptyGroups(sessions, now)[k].1| > 0
    ensures (Label(BucketOf(now, sessions[i].timestamp)), InBucket(sessions, now, BucketOf(now, sessions[i].timestamp)))
              in NonEmptyGroups(sessions, now)
  {
    var b := BucketOf(now, sessions[i].timestamp);
    InExactlyOneGroup(sessions, now, i, b);
    var all := Map(BucketOrder, (c: Bucket) => (Label(c), InBucket(sessions, now, c)));
    assert all[Rank(b)] == (Label(b), InBucket(sessions, now, b));
  }

  /** The short date shown beside a session: the time of day, "Ayer", or the day and month. */
  datatype DateLabel = TimeOfDay(t: int) | Ayer | DayAndMonth(t: int)

  /** `formatDate(timestamp)` at `now`. */
  function FormatDate(now: int, t: int): DateLabel {
    var diff := now - t;
    if diff < Day then TimeOfDay(t)
    else if diff < 2 * Day then Ayer
    else DayAndMonth(t)
  }

  /** "Ayer" is shown exactly for sessions between one and two days old,
      which are exactly the sessions of the "Ayer" group. */
  lemma AyerMeansYesterdayGroup(now: int, t: int)
    ensures FormatDate(now, t) == Ayer <==> Day <= now - t < 2 * Day
    ensures FormatDate(now, t) == Ayer <==> BucketOf(now, t) == Yesterday
    ensures FormatDate(now, t).TimeOfDay? <==> BucketOf(now, t) == Today
  {
  }

  /** The context menu of a session in the list. */
  class SessionMenu {
    /** The element the menu is anchored to, by an identifier of it. */
    var menuAnchor: Option<nat>
    var selectedSessionForMenu: Option<string>

    constructor ()
      ensures menuAnchor == None && selectedSessionForMenu == None
    {
      menuAnchor := None;
      selectedSessionForMenu := None;
    }

    /** `handleMenuOpen` */
    method HandleMenuOpen(anchor: nat, sessionId: string)
      modifies this
      ensures menuAnchor == Some(anchor) && selectedSessionForMenu == Some(sessionId)
    {
      menuAnchor := Some(anchor);
      selectedSessionForMenu := Some(sessionId);
    }

    /** `handleMenuClose` */
    method HandleMenuClose()
      modifies this
      ensures menuAnchor == None && selectedSessionForMenu == None
    {
      menuAnchor := None;
      selectedSessionForMenu := None;
    }

    /** `handleDeleteSession`: `requested` is the id `onDeleteSession` is
        called with, when a session is selected and the callback was given;
        the menu closes either way. */
    method HandleDeleteSession(hasCallback: bool) returns (requested: Option<string>)
      modifies this
      ensures requested == if Truthy(old(selectedSessionForMenu)) && hasCallback then old(selectedSessionForMenu) else None
      ensures menuAnchor == None && selectedSessionForMenu == None
    {
      requested := None;
      if Truthy(selectedSessionForMenu) && hasCallback {
        requested := selectedSessionForMenu;
      }
      HandleMenuClose();
    }
  }
}
