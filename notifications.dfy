/**
 * The notifications screen: the notices that match the search box, newest first, grouped under
 * day headings ("Today", "Yesterday", or the date), each with a relative time label. Times are
 * milliseconds since the epoch; the local calendar day of a time and the printed forms of dates
 * and clock times are parameters.
 */
module Notifications {
  import opened Wrappers
  import opened JsText
  import opened DateText

  datatype Notice = Notice(id: string, createdAt: int, text: string)

  // ---------------------------------------------------------------- search

  /** The notice's lower-cased text contains the trimmed, lower-cased query. */
  function Matches(n: Notice, query: string): (b: bool)
    ensures IsBlank(query) ==> b
    ensures b ==> |Trim(query)| <= |n.text|
  {
    IncludesEmpty(ToLower(n.text));
    Includes(ToLower(n.text), ToLower(Trim(query)))
  }

  /** The filter step: the matching notices, in their original order. */
  function Kept(notices: seq<Notice>, query: string): (r: seq<Notice>)
    ensures |r| <= |notices|
    ensures forall n :: n in r <==> n in notices && Matches(n, query)
    decreases |notices|
  {
    if notices == [] then []
    else
      var rest := Kept(notices[..|notices| - 1], query);
      var n := notices[|notices| - 1];
      assert forall x :: x in notices <==> x in notices[..|notices| - 1] || x == n by {
        assert notices == notices[..|notices| - 1] + [n];
      }
      if Matches(n, query) then rest + [n] else rest
  }

  /** A blank query keeps every notice. */
  lemma {:induction false} BlankQueryKeepsAll(notices: seq<Notice>, query: string)
    requires IsBlank(query)
    ensures Kept(notices, query) == notices
    decreases |notices|
  {
    if notices != [] {
      BlankQueryKeepsAll(notices[..|notices| - 1], query);
      assert notices[..|notices| - 1] + [notices[|notices| - 1]] == notices;
    }
  }

  // ---------------------------------------------------------------- newest first

  /** Newest first: createdAt never increases along the list. */
  predicate NewestFirst(s: seq<Notice>) {
    forall i, j :: 0 <= i < j < |s| ==> s[i].createdAt >= s[j].createdAt
  }

  /** x put before the first notice that is not newer than it, which keeps equal times in order. */
  function Insert(x: Notice, s: seq<Notice>): (r: seq<Notice>)
    ensures multiset(r) == multiset(s) + multiset{x}
    ensures |r| == |s| + 1
    ensures r != [] && (r[0] == x || (s != [] && r[0] == s[0]))
    decreases |s|
  {
    if s == [] || s[0].createdAt <= x.createdAt then [x] + s
    else
      assert s == [s[0]] + s[1..];
      [s[0]] + Insert(x, s[1..])
  }

  lemma {:induction false} InsertKeepsOrder(x: Notice, s: seq<Notice>)
    requires NewestFirst(s)
    ensures NewestFirst(Insert(x, s))
    decreases |s|
  {
    if !(s == [] || s[0].createdAt <= x.createdAt) {
      InsertKeepsOrder(x, s[1..]);
      var r := Insert(x, s[1..]);
      forall k | 0 <= k < |r| ensures s[0].createdAt >= r[k].createdAt {
        assert r[k] in multiset(r);
        if r[k] != x {
          assert r[k] in multiset(s[1..]);
          var j :| 0 <= j < |s[1..]| && s[1..][j] == r[k];
          assert s[j + 1] == r[k];
        }
      }
    }
  }

  /** `sort((a, b) => b.createdAt - a.createdAt)`, the stable sort, newest first. */
  function SortNewestFirst(s: seq<Notice>): (r: seq<Notice>)
    ensures multiset(r) == multiset(s) && |r| == |s|
    decreases |s|
  {
    if s == [] then []
    else
      assert s == [s[0]] + s[1..];
      Insert(s[0], SortNewestFirst(s[1..]))
  }

  /** The sorted list is newest first. */
  lemma {:induction false} SortedNewestFirst(s: seq<Notice>)
    ensures NewestFirst(SortNewestFirst(s))
    decreases |s|
  {
    if s != [] {
      SortedNewestFirst(s[1..]);
      InsertKeepsOrder(s[0], SortNewestFirst(s[1..]));
    }
  }

  // ---------------------------------------------------------------- labels

  /**
   * The day before a calendar day: `setDate(getDate() - 1)` on a copy of now, which rolls back
   * into the previous month or year.
   */
  function PreviousDay(d: JsDate): (r: JsDate)
    ensures d.Date? && ValidDate(d.year, d.month, d.day) && d.day > 1 ==> r == Date(d.year, d.month, d.day - 1)
  {
    if d.Date? && 0 <= d.month < 12 then Normalize(d.year, d.month, d.day - 1) else InvalidDate
  }

  /** dayLabel */
  function DayLabel(t: int, now: int, localDay: int -> JsDate, formatDay: int -> string): (r: string)
    ensures localDay(t) == localDay(now) ==> r == "Today"
    ensures localDay(t) != localDay(now) && localDay(t) == PreviousDay(localDay(now)) ==> r == "Yesterday"
    ensures localDay(t) != localDay(now) && localDay(t) != PreviousDay(localDay(now)) ==> r == formatDay(t)
  {
    if localDay(t) == localDay(now) then "Today"
    else if localDay(t) == PreviousDay(localDay(now)) then "Yesterday"
    else formatDay(t)
  }

  /** `Math.round(n / d)` for a positive divisor d: the nearest integer, halves rounded up. */
  function RoundDiv(n: int, d: int): (r: int)
    requires d > 0
    ensures 2 * d * r - d <= 2 * n < 2 * d * r + d
  {
    (2 * n + d) / (2 * d)
  }

  datatype TimeAgo = ClockTime | HoursAgo(hours: int) | MinutesAgo(minutes: int) | JustNow

  /** timeLabel: the diff rounded to minutes, those to hours, those to days, then the first threshold met. */
  function TimeLabel(t: int, now: int): (r: TimeAgo)
    ensures r.HoursAgo? ==> 1 <= r.hours <= 35
    ensures r.MinutesAgo? ==> 1 <= r.minutes <= 29
  {
    var mins := RoundDiv(now - t, 60 * 1000);
    var hours := RoundDiv(mins, 60);
    var days := RoundDiv(hours, 24);
    if days >= 2 then ClockTime
    else if hours >= 1 then HoursAgo(hours)
    else if mins >= 1 then MinutesAgo(mins)
    else JustNow
  }

  /** The printed time label, given how the clock time of the notice prints. */
  function TimeText(ago: TimeAgo, clock: string): (r: string)
    ensures ago.HoursAgo? && ago.hours >= 0 ==> ParseInt(r) == Some(ago.hours)
    ensures ago.MinutesAgo? && ago.minutes >= 0 ==> ParseInt(r) == Some(ago.minutes)
    ensures ago == ClockTime ==> |r| == |clock|
  {
    match ago
    case ClockTime => ToLower(clock)
    case HoursAgo(h) =>
      assert h >= 0 ==> ParseInt(IntToString(h) + "hr ago") == Some(h) by {
        if h >= 0 {
          ParseIntOfDigits(NatToString(h), "hr ago");
        }
      }
      IntToString(h) + "hr ago"
    case MinutesAgo(m) =>
      assert m >= 0 ==> ParseInt(IntToString(m) + "m ago") == Some(m) by {
        if m >= 0 {
          ParseIntOfDigits(NatToString(m), "m ago");
        }
      }
      IntToString(m) + "m ago"
    case JustNow => "Just now"
  }

  /**
   * The thresholds the three roundings make, in milliseconds of age: the clock time from 35
   * hours 29.5 minutes on, hours from 29.5 minutes on, minutes from 30 seconds on, and "Just now" below that,
   * future times included.
   */
  lemma TimeLabelThresholds(t: int, now: int)
    ensures var age := now - t;
            (TimeLabel(t, now) == ClockTime <==> age >= 127770000) &&
            (TimeLabel(t, now).HoursAgo? <==> 1770000 <= age < 127770000) &&
            (TimeLabel(t, now).MinutesAgo? <==> 30000 <= age < 1770000) &&
            (TimeLabel(t, now) == JustNow <==> age < 30000)
  {
    var age := now - t;
    var mins := RoundDiv(age, 60 * 1000);
    var hours := RoundDiv(mins, 60);
    var days := RoundDiv(hours, 24);
    assert mins >= 1 <==> age >= 30000;
    assert mins >= 30 <==> age >= 1770000;
    assert mins >= 2130 <==> age >= 127770000;
    assert hours >= 1 <==> mins >= 30;
    assert hours >= 36 <==> mins >= 2130;
    assert days >= 2 <==> hours >= 36;
  }

  // ---------------------------------------------------------------- grouping

  /** A section: its heading and its notices. */
  datatype Group = Group(heading: string, notices: seq<Notice>)

  /** The distinct labels of the notices, in order of first occurrence. */
  function Labels(s: seq<Notice>, dayOf: Notice -> string): (ls: seq<string>)
    ensures |ls| <= |s|
    decreases |s|
  {
    if s == [] then []
    else
      var init := Labels(s[..|s| - 1], dayOf);
      var l := dayOf(s[|s| - 1]);
      if l in init then init else init + [l]
  }

  /** The notices with a given day label, in their order. */
  function WithLabel(s: seq<Notice>, dayOf: Notice -> string, l: string): (r: seq<Notice>)
    ensures |r| <= |s|
    decreases |s|
  {
    if s == [] then []
    else
      var init := WithLabel(s[..|s| - 1], dayOf, l);
      if dayOf(s[|s| - 1]) == l then init + [s[|s| - 1]] else init
  }

  lemma LastSplit(s: seq<Notice>)
    requires s != []
    ensures forall x :: x in s <==> x in s[..|s| - 1] || x == s[|s| - 1]
  {
    assert s == s[..|s| - 1] + [s[|s| - 1]];
  }

  /** A day label is listed exactly when some notice has it. */
  lemma {:induction false} LabelsIff(s: seq<Notice>, dayOf: Notice -> string, l: string)
    ensures l in Labels(s, dayOf) <==> exists n :: n in s && dayOf(n) == l
    decreases |s|
  {
    if s != [] {
      LabelsIff(s[..|s| - 1], dayOf, l);
      LastSplit(s);
    }
  }

  /** No day label is listed twice. */
  lemma {:induction false} LabelsDistinct(s: seq<Notice>, dayOf: Notice -> string)
    ensures forall i, j :: 0 <= i < j < |Labels(s, dayOf)| ==> Labels(s, dayOf)[i] != Labels(s, dayOf)[j]
    decreases |s|
  {
    if s != [] {
      LabelsDistinct(s[..|s| - 1], dayOf);
    }
  }

  /** A notice is in the list of a day label exactly when it is one of the notices and has that label. */
  lemma {:induction false} WithLabelIff(s: seq<Notice>, dayOf: Notice -> string, l: string, n: Notice)
    ensures n in WithLabel(s, dayOf, l) <==> n in s && dayOf(n) == l
    decreases |s|
  {
    if s != [] {
      WithLabelIff(s[..|s| - 1], dayOf, l, n);
      LastSplit(s);
    }
  }

  /** Labels are listed once, each with the notices that have it, and every notice has its group. */
  predicate GroupsOf(gs: seq<Group>, s: seq<Notice>, dayOf: Notice -> string) {
    |gs| == |Labels(s, dayOf)| &&
    forall k :: 0 <= k < |gs| ==> gs[k] == Group(Labels(s, dayOf)[k], WithLabel(s, dayOf, Labels(s, dayOf)[k]))
  }

  /**
   * The grouping as the screen shows it: headings in order of first occurrence, none twice, no
   * empty section, and each notice in the one section of its own day label.
   */
  lemma GroupsProperties(gs: seq<Group>, s: seq<Notice>, dayOf: Notice -> string)
    requires GroupsOf(gs, s, dayOf)
    ensures forall i, j :: 0 <= i < j < |gs| ==> gs[i].heading != gs[j].heading
    ensures forall k :: 0 <= k < |gs| ==> gs[k].notices != []
    ensures forall k, n :: 0 <= k < |gs| && n in gs[k].notices ==> n in s && dayOf(n) == gs[k].heading
    ensures forall n :: n in s ==> exists k :: 0 <= k < |gs| && gs[k].heading == dayOf(n) && n in gs[k].notices
  {
    LabelsDistinct(s, dayOf);
    forall k | 0 <= k < |gs| ensures gs[k].notices != [] {
      var l := Labels(s, dayOf)[k];
      LabelsIff(s, dayOf, l);
      var n :| n in s && dayOf(n) == l;
      WithLabelIff(s, dayOf, l, n);
    }
    forall k, n | 0 <= k < |gs| && n in gs[k].notices ensures n in s && dayOf(n) == gs[k].heading {
      WithLabelIff(s, dayOf, Labels(s, dayOf)[k], n);
    }
    forall n | n in s ensures exists k :: 0 <= k < |gs| && gs[k].heading == dayOf(n) && n in gs[k].notices {
      LabelsIff(s, dayOf, dayOf(n));
      var k :| 0 <= k < |Labels(s, dayOf)| && Labels(s, dayOf)[k] == dayOf(n);
      WithLabelIff(s, dayOf, dayOf(n), n);
      assert gs[k].heading == dayOf(n) && n in gs[k].notices;
    }
  }

  /** A day label not yet listed has no notices. */
  lemma UnlistedIsEmpty(s: seq<Notice>, dayOf: Notice -> string, l: string)
    requires l !in Labels(s, dayOf)
    ensures WithLabel(s, dayOf, l) == []
  {
    LabelsIff(s, dayOf, l);
    if WithLabel(s, dayOf, l) != [] {
      WithLabelIff(s, dayOf, l, WithLabel(s, dayOf, l)[0]);
    }
  }

  /**
   * The grouping loop: a Map from day label to notices that is filled in list order, a new label
   * being added with an empty array before the notice is pushed; its entries, in insertion order.
   */
  method GroupByDay(s: seq<Notice>, dayOf: Notice -> string) returns (gs: seq<Group>)
    ensures GroupsOf(gs, s, dayOf)
  {
    var order: seq<string> := [];
    var buckets: map<string, seq<Notice>> := map[];
    for i := 0 to |s|
      invariant order == Labels(s[..i], dayOf)
      invariant forall l :: l in buckets <==> l in order
      invariant forall l :: l in buckets ==> buckets[l] == WithLabel(s[..i], dayOf, l)
    {
      var n := s[i];
      var l := dayOf(n);
      ghost var prefix := s[..i + 1];
      assert prefix[..i] == s[..i] && prefix[i] == n;
      assert Labels(prefix, dayOf) == if l in order then order else order + [l];
      if l !in buckets {
        UnlistedIsEmpty(s[..i], dayOf, l);
        order := order + [l];
        buckets := buckets[l := []];
      }
      buckets := buckets[l := buckets[l] + [n]];
      forall m | m in buckets
        ensures buckets[m] == WithLabel(prefix, dayOf, m)
      {
        assert WithLabel(prefix, dayOf, m) == if m == l then WithLabel(s[..i], dayOf, m) + [n] else WithLabel(s[..i], dayOf, m);
      }
    }
    assert s[..|s|] == s;
    gs := [];
    for k := 0 to |order|
      invariant |gs| == k
      invariant forall j :: 0 <= j < k ==> gs[j] == Group(order[j], buckets[order[j]])
    {
      gs := gs + [Group(order[k], buckets[order[k]])];
    }
  }

  /** `grouped`: the matching notices, newest first, in sections by day. */
  method Grouped(notices: seq<Notice>, query: string, now: int, localDay: int -> JsDate, formatDay: int -> string)
    returns (gs: seq<Group>)
    ensures GroupsOf(gs, SortNewestFirst(Kept(notices, query)), (n: Notice) => DayLabel(n.createdAt, now, localDay, formatDay))
  {
    var filtered := SortNewestFirst(Kept(notices, query));
    gs := GroupByDay(filtered, (n: Notice) => DayLabel(n.createdAt, now, localDay, formatDay));
  }
}
