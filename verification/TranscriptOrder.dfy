/** The order of the merged timeline, in terms of the times its items carry. */
module TranscriptOrder {
  import opened Prelude
  import opened GapModel
  import opened Transcripts

  /** The time an item carries, if it carries one: a row may not, a gap always does. */
  ghost predicate StartsAt(item: Item, ms: nat) {
    match item
    case SegmentItem(row) => row.startMs == Some(ms)
    case GapItem(gap) => gap.startMs == ms
  }

  ghost predicate Untimed(item: Item) {
    item.SegmentItem? && item.segment.startMs.None?
  }

  function Rows(segments: seq<Segment>): seq<Item> {
    var v := Visible(segments);
    seq(|v|, i requires 0 <= i < |v| => SegmentItem(v[i]))
  }

  function GapItems(gaps: seq<Gap>): seq<Item> {
    seq(|gaps|, i requires 0 <= i < |gaps| => GapItem(gaps[i]))
  }

  // ---- Nothing lost, nothing added --------------------------------------------------

  lemma {:induction false} InsertedAll(sorted: seq<Item>, x: Item)
    ensures multiset(Inserted(sorted, x)) == multiset(sorted) + multiset{x}
    decreases |sorted|
  {
    if sorted != [] && KeyOf(sorted[|sorted| - 1]) > KeyOf(x) {
      var n := |sorted| - 1;
      InsertedAll(sorted[..n], x);
      assert sorted == sorted[..n] + [sorted[n]];
    }
  }

  lemma {:induction false} SortedAll(items: seq<Item>)
    ensures multiset(SortedByKey(items)) == multiset(items)
  {
    hide Inserted;
    if items != [] {
      var n := |items| - 1;
      SortedAll(items[..n]);
      InsertedAll(SortedByKey(items[..n]), items[n]);
      assert items == items[..n] + [items[n]];
    }
  }

  /** The timeline shows every visible row and every gap, each as often as it occurs. */
  lemma TimelineShowsAll(segments: seq<Segment>, gaps: seq<Gap>)
    ensures multiset(TimelineItems(segments, gaps)) == multiset(Rows(segments)) + multiset(GapItems(gaps))
  {
    SortedAll(Unsorted(segments, gaps));
    assert Unsorted(segments, gaps) == Rows(segments) + GapItems(gaps);
  }

  // ---- Order ------------------------------------------------------------------------

  lemma AtKeyPlaces(items: seq<Item>, i: nat, j: nat, key: nat) returns (p: nat, q: nat)
    requires i < j < |items| && KeyOf(items[i]) == key == KeyOf(items[j])
    ensures p < q < |AtKey(items, key)| && AtKey(items, key)[p] == items[i] && AtKey(items, key)[q] == items[j]
  {
    var front, back := items[..j], items[j..];
    assert items == front + back && back[0] == items[j] && front[i] == items[i];
    AtKeyConcat(front, back, key);
    AtKeyFirst(back, key);
    p := AtKeyPlace(front, i, key);
    q := |AtKey(front, key)|;
  }

  lemma {:induction false} AtKeyPlace(items: seq<Item>, i: nat, key: nat) returns (p: nat)
    requires i < |items| && KeyOf(items[i]) == key
    ensures p < |AtKey(items, key)| && AtKey(items, key)[p] == items[i]
  {
    AtKeyFirst(items, key);
    if i == 0 {
      p := 0;
    } else {
      p := AtKeyPlace(items[1..], i - 1, key);
      p := if KeyOf(items[0]) == key then p + 1 else p;
    }
  }

  lemma {:induction false} AtKeyFrom(items: seq<Item>, key: nat)
    ensures forall x :: x in AtKey(items, key) ==> x in items
  {
    if items != [] {
      AtKeyFirst(items, key);
      AtKeyFrom(items[1..], key);
    }
  }

  /** At one time the rows come before the gaps. */
  lemma RowsBeforeGaps(segments: seq<Segment>, gaps: seq<Gap>, i: nat, j: nat)
    requires i < j < |TimelineItems(segments, gaps)|
    requires TimelineItems(segments, gaps)[i].GapItem? && TimelineItems(segments, gaps)[j].SegmentItem?
    ensures KeyOf(TimelineItems(segments, gaps)[i]) != KeyOf(TimelineItems(segments, gaps)[j])
  {
    hide AtKey, KeyOf, TimelineItems;
    var items := TimelineItems(segments, gaps);
    var key := KeyOf(items[i]);
    if KeyOf(items[j]) == key {
      TimelineIsStable(segments, gaps, key);
      var rows, breaks := Rows(segments), GapItems(gaps);
      assert Unsorted(segments, gaps) == rows + breaks;
      AtKeyConcat(rows, breaks, key);
      AtKeyFrom(rows, key);
      AtKeyFrom(breaks, key);
      var p, q := AtKeyPlaces(items, i, j, key);
      RowsFirst(AtKey(rows, key), AtKey(breaks, key), p, q);
    }
  }

  lemma RowsFirst(rows: seq<Item>, gaps: seq<Item>, p: nat, q: nat)
    requires (forall x :: x in rows ==> x.SegmentItem?) && forall x :: x in gaps ==> x.GapItem?
    requires p < q < |rows + gaps|
    ensures (rows + gaps)[p].GapItem? ==> (rows + gaps)[q].GapItem?
  {
    if p >= |rows| {
      assert (rows + gaps)[q] == gaps[q - |rows|];
    } else {
      assert (rows + gaps)[p] == rows[p] && rows[p] in rows;
    }
  }

  /** Items that carry a time come in the order of their times, a row before a gap of the same time;
      rows without a time come behind everything earlier than the last representable millisecond. */
  lemma TimelineInOrder(segments: seq<Segment>, gaps: seq<Gap>, i: nat, j: nat, a: nat, b: nat)
    requires i < j < |TimelineItems(segments, gaps)|
    ensures var items := TimelineItems(segments, gaps);
            && (StartsAt(items[i], a) && StartsAt(items[j], b) ==>
                  a <= b && (items[i].GapItem? && items[j].SegmentItem? ==> a < b))
            && (Untimed(items[i]) && StartsAt(items[j], b) ==> b >= 0xFFFF_FFFF_FFFF_FFFF)
  {
    hide TimelineItems;
    var items := TimelineItems(segments, gaps);
    TimelineIsStable(segments, gaps, 0);
    if items[i].GapItem? && items[j].SegmentItem? {
      RowsBeforeGaps(segments, gaps, i, j);
    }
  }
}
