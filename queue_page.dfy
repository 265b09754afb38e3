/**
 * The queue page (src/pages/Queue.tsx): the in-place sort of the fetched queue, the row
 * positions, and the counters and labels the page shows.
 */
module QueuePage {
  import opened Wrappers
  import opened Json
  import opened Types
  import Strings
  import Hooks

  // ---------------------------------------------------------------------------
  // Ordering

  /**
   * The comparator `b.priority - a.priority || a.created - b.created` (creation times as
   * integers): a negative or zero result keeps `a` first.
   */
  function Compare(a: QueueItem, b: QueueItem): int {
    if b.priority - a.priority != 0 then b.priority - a.priority else a.created - b.created
  }

  /** `a` may come before `b`: higher priority first, then the earlier creation time. */
  predicate Before(a: QueueItem, b: QueueItem) {
    a.priority > b.priority || (a.priority == b.priority && a.created <= b.created)
  }

  /** The comparator and the order agree, and the order is total. */
  lemma CompareIsBefore(a: QueueItem, b: QueueItem)
    ensures Compare(a, b) <= 0 <==> Before(a, b)
    ensures Before(a, b) || Before(b, a)
  {
  }

  predicate Sorted(s: seq<QueueItem>) {
    forall i, j :: 0 <= i < j < |s| ==> Before(s[i], s[j])
  }

  /**
   * `queue.sort(...)`, which reorders the cached array itself: afterwards the array is sorted
   * and holds the same items.
   */
  method SortQueue(a: array<QueueItem>)
    modifies a
    ensures Sorted(a[..])
    ensures multiset(a[..]) == multiset(old(a[..]))
  {
    if a.Length == 0 {
      return;
    }
    var i := 1;
    while i < a.Length
      invariant 1 <= i <= a.Length
      invariant Sorted(a[..i])
      invariant multiset(a[..]) == multiset(old(a[..]))
    {
      InsertAt(a, i);
      i := i + 1;
    }
    assert a[..i] == a[..];
  }

  /** One insertion step: `a[..i]` is sorted, and afterwards `a[..i + 1]` is. */
  method InsertAt(a: array<QueueItem>, i: nat)
    requires i < a.Length
    requires Sorted(a[..i])
    modifies a
    ensures Sorted(a[..i + 1])
    ensures a[i + 1..] == old(a[i + 1..])
    ensures multiset(a[..]) == multiset(old(a[..]))
  {
    var j := i;
    while j > 0 && !Before(a[j - 1], a[j])
      invariant 0 <= j <= i
      invariant forall k, l :: 0 <= k < l <= i && k != j && l != j ==> Before(a[k], a[l])
      invariant forall l :: j < l <= i ==> Before(a[j], a[l])
      invariant 0 < j < i ==> Before(a[j - 1], a[j + 1])
      invariant a[i + 1..] == old(a[i + 1..])
      invariant multiset(a[..]) == multiset(old(a[..]))
    {
      Swap(a, j);
      j := j - 1;
    }
  }

  /** Exchanges two neighbours; the array keeps its items. */
  method Swap(a: array<QueueItem>, j: nat)
    requires 0 < j < a.Length
    modifies a
    ensures a[..] == old(a[..])[j - 1 := old(a[j])][j := old(a[j - 1])]
    ensures multiset(a[..]) == multiset(old(a[..]))
  {
    a[j - 1], a[j] := a[j], a[j - 1];
  }

  /** Adjacent rows: priority never rises, and within one priority creation time never falls. */
  lemma SortedAdjacent(s: seq<QueueItem>, i: nat)
    requires Sorted(s) && i + 1 < |s|
    ensures s[i].priority >= s[i + 1].priority
    ensures s[i].priority == s[i + 1].priority ==> s[i].created <= s[i + 1].created
  {
  }

  /** Adjacent order is enough to be sorted: the order is transitive. */
  lemma {:induction false} AdjacentSorted(s: seq<QueueItem>)
    requires forall i :: 0 <= i < |s| - 1 ==> Before(s[i], s[i + 1])
    ensures Sorted(s)
  {
    if |s| > 1 {
      AdjacentSorted(s[1..]);
      assert forall j :: 1 <= j < |s| ==> Before(s[0], s[j]) by {
        forall j | 1 <= j < |s| ensures Before(s[0], s[j]) {
          assert s[1..][j - 1] == s[j];
          if j > 1 {
            assert Before(s[1..][0], s[1..][j - 1]);
          }
        }
      }
      forall i, j | 0 <= i < j < |s| ensures Before(s[i], s[j]) {
        if i > 0 {
          assert s[1..][i - 1] == s[i] && s[1..][j - 1] == s[j];
        }
      }
    }
  }

  /**
   * An example with creation times T0 < T1 < T2: items {10, T1}, {20, T2}, {20, T0} can only
   * be sorted as 20/T0, 20/T2, 10/T1.
   */
  lemma ExampleOrder(s: seq<QueueItem>, t0: int, t1: int, t2: int)
    requires t0 < t1 < t2
    requires multiset(s) == multiset([QueueItem("a", 10, t1, None), QueueItem("b", 20, t2, None), QueueItem("c", 20, t0, None)])
    requires Sorted(s)
    ensures s == [QueueItem("c", 20, t0, None), QueueItem("b", 20, t2, None), QueueItem("a", 10, t1, None)]
  {
    var x, y, z := QueueItem("a", 10, t1, None), QueueItem("b", 20, t2, None), QueueItem("c", 20, t0, None);
    assert |s| == 3 by {
      assert |multiset(s)| == |s|;
    }
    assert forall k :: 0 <= k < 3 ==> s[k] in multiset(s);
    assert forall k :: 0 <= k < 3 ==> s[k] == x || s[k] == y || s[k] == z;
    assert x in multiset(s) && y in multiset(s) && z in multiset(s);
  }

  // ---------------------------------------------------------------------------
  // Rows and counters

  /** A table row: the position shown and the item. */
  datatype Row = Row(position: nat, item: QueueItem)

  /** The rows of the sorted queue: each position is the row's index plus one. */
  function Rows(sorted: seq<QueueItem>): (r: seq<Row>)
    ensures |r| == |sorted|
    ensures forall i :: 0 <= i < |r| ==> r[i].item == sorted[i] && r[i].position == i + 1
    ensures forall i, j :: 0 <= i < |r| && 0 <= j < |r| && r[i].position == r[j].position ==> i == j
    ensures forall i :: 0 <= i < |r| ==> 1 <= r[i].position <= |sorted|
  {
    seq(|sorted|, i requires 0 <= i < |sorted| => Row(i + 1, sorted[i]))
  }

  /** What a counter card shows: the loading ellipsis or a number. */
  datatype Counter = Loading | Count(n: nat)

  /** Queue length: `'...'` while loading, else `queue?.length || 0`. */
  function QueueLength(loading: bool, queue: Option<seq<QueueItem>>): (c: Counter)
    ensures loading <==> c.Loading?
    ensures !loading && queue.Some? ==> c == Count(|queue.value|)
    ensures !loading && queue.None? ==> c == Count(0)
  {
    if loading then Loading else Count(if queue.Some? then |queue.value| else 0)
  }

  /** Queued jobs: `'...'` while loading, else the embedded list's length or 0. */
  function QueuedJobsCount(loading: bool, data: Option<PagedJobs>): (c: Counter)
    ensures loading <==> c.Loading?
    ensures !loading ==> c == Count(|Hooks.EmbeddedJobs(data)|)
  {
    if loading then Loading else Count(|Hooks.EmbeddedJobs(data)|)
  }

  /** Processing: the embedded in-progress list's length or 0; this card has no loading state. */
  function ProcessingCount(data: Option<PagedJobs>): (n: nat)
    ensures data.None? || data.value.embedded.None? ==> n == 0
    ensures data.Some? && data.value.embedded.Some? ==> n == |data.value.embedded.value|
  {
    |Hooks.EmbeddedJobs(data)|
  }

  /** The empty-state message replaces the table when there is no queue or it is empty. */
  predicate ShowsEmptyState(loading: bool, queue: Option<seq<QueueItem>>) {
    !loading && (queue.None? || |queue.value| == 0)
  }

  /** The table is shown exactly when the counter shows a positive length. */
  lemma TableIffPositiveLength(loading: bool, queue: Option<seq<QueueItem>>)
    ensures !loading && !ShowsEmptyState(loading, queue) <==> QueueLength(loading, queue).Count? && QueueLength(loading, queue).n > 0
  {
  }

  /** The segment cell: `item.segment ?? '-'`, so a segment of 0 still shows as "0". */
  function SegmentLabel(segment: Option<int>): (r: string)
    ensures r == "-" <==> segment.None?
    ensures segment.Some? ==> r == IntToString(segment.value)
    ensures segment == Some(0) ==> r == "0"
  {
    if segment.Some? then IntToString(segment.value) else "-"
  }

  /** The link text: `item.id.slice(0, 8)` followed by an ellipsis. */
  function ShortId(id: string): (r: string)
    ensures |r| == (if |id| < 8 then |id| else 8) + 3
    ensures r[..|r| - 3] == id[..|r| - 3] && r[|r| - 3..] == "..."
  {
    Strings.Take(id, 8) + "..."
  }
}
