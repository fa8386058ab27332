/**
  What the transcript panel shows (apps/desktop/src/transcript.rs): superseded interim rows are
  left out, and gaps are merged in by time.
*/
module Transcripts {
  import opened Prelude
  import opened GapModel

  datatype Segment = Segment(track: Option<TrackKind>, speaker: Option<nat>, text: string, startMs: Option<nat>,
                             isFinal: bool)

  // ---- The batch view ---------------------------------------------------------------

  /** Final, or the last row of its track. */
  predicate Kept(s: seq<Segment>, i: nat)
    requires i < |s|
  {
    s[i].isFinal || forall j :: i < j < |s| ==> s[j].track != s[i].track
  }

  function KeptBefore(s: seq<Segment>, n: nat): seq<Segment>
    requires n <= |s|
  {
    if n == 0 then [] else KeptBefore(s, n - 1) + (if Kept(s, n - 1) then [s[n - 1]] else [])
  }

  function Visible(s: seq<Segment>): seq<Segment> {
    KeptBefore(s, |s|)
  }

  ghost predicate LastIndices(s: seq<Segment>, n: nat, last: map<Option<TrackKind>, nat>) {
    && (forall t :: t in last ==> last[t] < n <= |s| && s[last[t]].track == t)
    && (forall i :: 0 <= i < n <= |s| ==> s[i].track in last && i <= last[s[i].track])
  }

  method VisibleSegments(segments: seq<Segment>) returns (visible: seq<Segment>)
    ensures visible == Visible(segments)
  {
    var lastIndexForTrack: map<Option<TrackKind>, nat> := map[];
    for i := 0 to |segments|
      invariant LastIndices(segments, i, lastIndexForTrack)
    {
      lastIndexForTrack := lastIndexForTrack[segments[i].track := i];
    }
    var keepInterim := set i | i in lastIndexForTrack.Values && i < |segments| && !segments[i].isFinal;
    visible := [];
    for i := 0 to |segments|
      invariant visible == KeptBefore(segments, i)
    {
      LastIsKept(segments, lastIndexForTrack, i);
      if segments[i].isFinal || i in keepInterim {
        visible := visible + [segments[i]];
      }
    }
  }

  lemma LastIsKept(s: seq<Segment>, last: map<Option<TrackKind>, nat>, i: nat)
    requires LastIndices(s, |s|, last) && i < |s|
    ensures Kept(s, i) <==> s[i].isFinal || i in last.Values
  {
    if i in last.Values {
      assert last[s[i].track] == i;
    } else {
      assert last[s[i].track] in last.Values;
      assert i < last[s[i].track];
    }
  }

  // ---- The incremental view ---------------------------------------------------------

  /** Without the pending interim of one track. */
  function Settled(v: seq<Segment>, track: Option<TrackKind>): seq<Segment> {
    if v == [] then []
    else
      var x := v[|v| - 1];
      Settled(v[..|v| - 1], track) + (if !x.isFinal && x.track == track then [] else [x])
  }

  /** One row at a time: what a panel can do without looking back. */
  function Folded(s: seq<Segment>): seq<Segment> {
    if s == [] then [] else Settled(Folded(s[..|s| - 1]), s[|s| - 1].track) + [s[|s| - 1]]
  }

  lemma SettledConcat(v: seq<Segment>, x: Segment, track: Option<TrackKind>)
    ensures Settled(v + [x], track) == Settled(v, track) + (if !x.isFinal && x.track == track then [] else [x])
  {
    assert (v + [x])[..|v|] == v;
  }

  lemma {:induction false} KeptAfterMore(s: seq<Segment>, x: Segment, n: nat)
    requires n <= |s|
    ensures KeptBefore(s + [x], n) == Settled(KeptBefore(s, n), x.track)
  {
    if n > 0 {
      var i := n - 1;
      KeptAfterMore(s, x, i);
      assert (s + [x])[i] == s[i];
      KeptOnce(s, x, i);
      if Kept(s, i) {
        SettledConcat(KeptBefore(s, i), s[i], x.track);
      } else {
        assert KeptBefore(s, n) == KeptBefore(s, i);
        assert KeptBefore(s + [x], n) == KeptBefore(s + [x], i);
      }
    }
  }

  lemma KeptOnce(s: seq<Segment>, x: Segment, i: nat)
    requires i < |s|
    ensures Kept(s + [x], i) <==> Kept(s, i) && (s[i].isFinal || s[i].track != x.track)
  {
    if Kept(s + [x], i) && !s[i].isFinal {
      assert (s + [x])[|s|] == x;
      forall j | i < j < |s| ensures s[j].track != s[i].track {
        assert (s + [x])[j] == s[j];
      }
    }
  }

  /** A new row drops its track's pending interim and is added at the end. */
  lemma VisibleIncrement(s: seq<Segment>, x: Segment)
    ensures Visible(s + [x]) == Settled(Visible(s), x.track) + [x]
  {
    KeptAfterMore(s, x, |s|);
    assert Kept(s + [x], |s|);
  }

  /** The incremental view refines the batch view. */
  lemma {:induction false} FoldIsBatch(s: seq<Segment>)
    ensures Folded(s) == Visible(s)
  {
    if s != [] {
      var front := s[..|s| - 1];
      FoldIsBatch(front);
      VisibleIncrement(front, s[|s| - 1]);
      assert front + [s[|s| - 1]] == s;
    }
  }

  // ---- What is shown ----------------------------------------------------------------

  ghost predicate OnePending(v: seq<Segment>) {
    forall i, j :: 0 <= i < j < |v| && !v[i].isFinal ==> v[i].track != v[j].track
  }

  lemma {:induction false} SettledFrom(v: seq<Segment>, track: Option<TrackKind>)
    ensures forall x :: x in Settled(v, track) ==> x in v && (x.isFinal || x.track != track)
  {
    if v != [] {
      SettledFrom(v[..|v| - 1], track);
    }
  }

  lemma {:induction false} SettledPending(v: seq<Segment>, track: Option<TrackKind>)
    requires OnePending(v)
    ensures OnePending(Settled(v, track))
  {
    if v != [] {
      var front, x := v[..|v| - 1], v[|v| - 1];
      SettledPending(front, track);
      SettledFrom(front, track);
      var rest := Settled(front, track);
      hide Settled;
      forall i | 0 <= i < |rest| && !rest[i].isFinal ensures rest[i].track != x.track {
        assert rest[i] in front;
        var k :| 0 <= k < |front| && front[k] == rest[i];
        assert v[k] == front[k];
      }
    }
  }

  lemma {:induction false} SettledFinals(v: seq<Segment>, track: Option<TrackKind>)
    ensures Finals(Settled(v, track)) == Finals(v)
  {
    if v != [] {
      var front, x := v[..|v| - 1], v[|v| - 1];
      SettledFinals(front, track);
      var rest := Settled(front, track);
      assert (rest + [x])[..|rest|] == rest && rest + [] == rest;
    }
  }

  function Finals(s: seq<Segment>): seq<Segment> {
    if s == [] then [] else Finals(s[..|s| - 1]) + (if s[|s| - 1].isFinal then [s[|s| - 1]] else [])
  }

  /** Every final row is shown, in order and nothing twice; a track shows at most one interim row,
      after which none of its rows follows. */
  lemma {:induction false} VisibleIs(s: seq<Segment>)
    ensures Finals(Visible(s)) == Finals(s)
    ensures OnePending(Visible(s))
  {
    if s != [] {
      var front, x := s[..|s| - 1], s[|s| - 1];
      VisibleIs(front);
      VisibleIncrement(front, x);
      assert front + [x] == s;
      var rest := Settled(Visible(front), x.track);
      SettledFrom(Visible(front), x.track);
      SettledPending(Visible(front), x.track);
      SettledFinals(Visible(front), x.track);
      assert (rest + [x])[..|rest|] == rest;
    }
  }

  lemma {:induction false} NothingLeftOut(v: seq<Segment>, n: nat)
    requires OnePending(v) && n <= |v|
    ensures KeptBefore(v, n) == v[..n]
  {
    if n > 0 {
      NothingLeftOut(v, n - 1);
      assert Kept(v, n - 1);
    }
  }

  /** Showing what is shown changes nothing. */
  lemma VisibleTwice(s: seq<Segment>)
    ensures Visible(Visible(s)) == Visible(s)
  {
    VisibleIs(s);
    NothingLeftOut(Visible(s), |Visible(s)|);
  }

  // ---- The merged timeline ----------------------------------------------------------

  datatype Item = SegmentItem(segment: Segment) | GapItem(gap: Gap)

  const LAST: nat := 0xFFFF_FFFF_FFFF_FFFF

  function KeyOf(item: Item): nat {
    match item
    case SegmentItem(s) => if s.startMs.Some? then s.startMs.value else LAST
    case GapItem(g) => g.startMs
  }

  /** A stable sort: each item goes after all that are not later than it. */
  function Inserted(sorted: seq<Item>, x: Item): seq<Item> {
    if sorted == [] || KeyOf(sorted[|sorted| - 1]) <= KeyOf(x) then sorted + [x]
    else Inserted(sorted[..|sorted| - 1], x) + [sorted[|sorted| - 1]]
  }

  function SortedByKey(items: seq<Item>): seq<Item> {
    if items == [] then [] else Inserted(SortedByKey(items[..|items| - 1]), items[|items| - 1])
  }

  function Unsorted(segments: seq<Segment>, gaps: seq<Gap>): seq<Item> {
    var v := Visible(segments);
    seq(|v|, i requires 0 <= i < |v| => SegmentItem(v[i])) + seq(|gaps|, i requires 0 <= i < |gaps| => GapItem(gaps[i]))
  }

  function TimelineItems(segments: seq<Segment>, gaps: seq<Gap>): seq<Item> {
    SortedByKey(Unsorted(segments, gaps))
  }

  ghost predicate InOrder(items: seq<Item>) {
    forall i, j :: 0 <= i <= j < |items| ==> KeyOf(items[i]) <= KeyOf(items[j])
  }

  /** The items at one position, in the order they appear. */
  function AtKey(items: seq<Item>, key: nat): seq<Item> {
    if items == [] then []
    else (if KeyOf(items[0]) == key then [items[0]] else []) + AtKey(items[1..], key)
  }

  lemma AtKeyFirst(items: seq<Item>, key: nat)
    requires items != []
    ensures AtKey(items, key) == (if KeyOf(items[0]) == key then [items[0]] else []) + AtKey(items[1..], key)
  {
  }

  lemma {:induction false} AtKeyConcat(a: seq<Item>, b: seq<Item>, key: nat)
    ensures AtKey(a + b, key) == AtKey(a, key) + AtKey(b, key)
  {
    if a == [] {
      assert a + b == b;
    } else {
      var head := if KeyOf(a[0]) == key then [a[0]] else [];
      AtKeyFirst(a, key);
      AtKeyFirst(a + b, key);
      assert (a + b)[1..] == a[1..] + b;
      hide AtKey;
      AtKeyConcat(a[1..], b, key);
      assert head + (AtKey(a[1..], key) + AtKey(b, key)) == (head + AtKey(a[1..], key)) + AtKey(b, key);
    }
  }

  lemma {:induction false} AtKeyLater(items: seq<Item>, key: nat)
    requires forall i :: 0 <= i < |items| ==> KeyOf(items[i]) != key
    ensures AtKey(items, key) == []
  {
    if items != [] { AtKeyLater(items[1..], key); }
  }

  lemma AtKeyOne(x: Item, key: nat)
    ensures AtKey([x], key) == if KeyOf(x) == key then [x] else []
  {
    assert [x][1..] == [];
  }

  lemma {:induction false} InsertedFrom(sorted: seq<Item>, x: Item)
    ensures forall y :: y in Inserted(sorted, x) ==> y == x || y in sorted
    decreases |sorted|
  {
    if sorted != [] && KeyOf(sorted[|sorted| - 1]) > KeyOf(x) {
      InsertedFrom(sorted[..|sorted| - 1], x);
    }
  }

  lemma {:induction false} InsertedOrder(sorted: seq<Item>, x: Item)
    requires InOrder(sorted)
    ensures InOrder(Inserted(sorted, x))
    decreases |sorted|
  {
    if sorted != [] && KeyOf(sorted[|sorted| - 1]) > KeyOf(x) {
      var n := |sorted| - 1;
      InsertedOrder(sorted[..n], x);
      InsertedFrom(sorted[..n], x);
      var rest := Inserted(sorted[..n], x);
      forall i | 0 <= i < |rest| ensures KeyOf(rest[i]) <= KeyOf(sorted[n]) {
        assert rest[i] == x || rest[i] in sorted[..n];
      }
    }
  }

  lemma {:induction false} InsertedAtKey(sorted: seq<Item>, x: Item, key: nat)
    requires InOrder(sorted)
    ensures AtKey(Inserted(sorted, x), key) == AtKey(sorted, key) + (if KeyOf(x) == key then [x] else [])
    decreases |sorted|
  {
    hide AtKey;
    AtKeyOne(x, key);
    if sorted == [] || KeyOf(sorted[|sorted| - 1]) <= KeyOf(x) {
      AtKeyConcat(sorted, [x], key);
    } else {
      var n := |sorted| - 1;
      var front, y := sorted[..n], sorted[n];
      InsertedAtKey(front, x, key);
      AtKeyConcat(Inserted(front, x), [y], key);
      AtKeyConcat(front, [y], key);
      AtKeyOne(y, key);
      assert front + [y] == sorted;
    }
  }

  /** The timeline is in order of time, and items at the same time keep the order they had. */
  lemma {:induction false} SortIsStable(items: seq<Item>, key: nat)
    ensures InOrder(SortedByKey(items)) && AtKey(SortedByKey(items), key) == AtKey(items, key)
  {
    if items != [] {
      var n := |items| - 1;
      SortIsStable(items[..n], key);
      InsertedOrder(SortedByKey(items[..n]), items[n]);
      InsertedAtKey(SortedByKey(items[..n]), items[n], key);
      AtKeyConcat(items[..n], [items[n]], key);
      AtKeyOne(items[n], key);
      assert items[..n] + [items[n]] == items;
    }
  }

  /** The merged timeline is in order of time, and what it shows at one time keeps the order of the
      visible rows, with the gaps after them. */
  lemma TimelineIsStable(segments: seq<Segment>, gaps: seq<Gap>, key: nat)
    ensures InOrder(TimelineItems(segments, gaps))
    ensures AtKey(TimelineItems(segments, gaps), key) == AtKey(Unsorted(segments, gaps), key)
  {
    SortIsStable(Unsorted(segments, gaps), key);
  }

  ghost predicate SameAtEveryKey(a: seq<Item>, b: seq<Item>) {
    forall key: nat :: AtKey(a, key) == AtKey(b, key)
  }

  lemma FirstKey(a: seq<Item>, b: seq<Item>)
    requires InOrder(b) && a != [] && AtKey(a, KeyOf(a[0])) == AtKey(b, KeyOf(a[0]))
    ensures b != [] && KeyOf(b[0]) <= KeyOf(a[0])
  {
    if b == [] || KeyOf(b[0]) > KeyOf(a[0]) {
      AtKeyLater(b, KeyOf(a[0]));
    }
  }

  lemma SameTails(a: seq<Item>, b: seq<Item>)
    requires a != [] && b != [] && a[0] == b[0] && SameAtEveryKey(a, b)
    ensures SameAtEveryKey(a[1..], b[1..])
  {
    forall key: nat ensures AtKey(a[1..], key) == AtKey(b[1..], key) {
      assert AtKey(a, key) == AtKey(b, key);
      var first := if KeyOf(a[0]) == key then 1 else 0;
      assert AtKey(a[1..], key) == AtKey(a, key)[first..] && AtKey(b[1..], key) == AtKey(b, key)[first..];
    }
  }

  /** No other order is both: order of time and keeping ties determine the timeline. */
  lemma {:induction false} StableOrderIsUnique(a: seq<Item>, b: seq<Item>)
    requires InOrder(a) && InOrder(b) && SameAtEveryKey(a, b)
    ensures a == b
    decreases |a|
  {
    if a == [] {
      if b != [] { FirstKey(b, a); }
    } else {
      FirstKey(a, b);
      FirstKey(b, a);
      assert AtKey(a, KeyOf(a[0]))[0] == a[0] && AtKey(b, KeyOf(b[0]))[0] == b[0];
      SameTails(a, b);
      StableOrderIsUnique(a[1..], b[1..]);
      assert a == [a[0]] + a[1..] && b == [b[0]] + b[1..];
    }
  }

  /** So whatever sorts by time and keeps ties yields this timeline. */
  lemma TimelineIsUnique(segments: seq<Segment>, gaps: seq<Gap>, items: seq<Item>)
    requires InOrder(items) && SameAtEveryKey(items, Unsorted(segments, gaps))
    ensures items == TimelineItems(segments, gaps)
  {
    forall key: nat ensures AtKey(items, key) == AtKey(TimelineItems(segments, gaps), key) {
      TimelineIsStable(segments, gaps, key);
      assert AtKey(items, key) == AtKey(Unsorted(segments, gaps), key);
    }
    TimelineIsStable(segments, gaps, 0);
    StableOrderIsUnique(items, TimelineItems(segments, gaps));
  }
}
