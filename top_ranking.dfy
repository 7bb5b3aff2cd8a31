/**
 * The rows a top chart shows (assets/dashboard/charts/topAnalysis.js): the
 * list sorted by decreasing value with a stable sort, cut to ten rows, and
 * reversed for the bottom-up category axis.
 */
module TopRanking {
  import opened Api

  /** Rows in non-increasing order of value. */
  predicate SortedDesc(s: seq<TopItem>) {
    forall i, j :: 0 <= i < j < |s| ==> s[i].value >= s[j].value
  }

  /** Where the stable sort by `b.Value - a.Value` puts `x`, which came before every row of `s` in the input: before the first row not larger than it. */
  function InsertPos(x: TopItem, s: seq<TopItem>): (k: nat)
    ensures k <= |s|
    ensures forall i :: 0 <= i < k ==> s[i].value > x.value
    ensures k < |s| ==> s[k].value <= x.value
  {
    if s == [] || s[0].value <= x.value then 0 else 1 + InsertPos(x, s[1..])
  }

  /** One insertion step of the sort: `x` placed at `InsertPos`, keeping `s` otherwise intact and sorted. */
  function Insert(x: TopItem, s: seq<TopItem>): (r: seq<TopItem>)
    ensures r == s[..InsertPos(x, s)] + [x] + s[InsertPos(x, s)..]
    ensures multiset(r) == multiset(s) + multiset{x}
  {
    var k := InsertPos(x, s);
    assert s == s[..k] + s[k..];
    s[..k] + [x] + s[k..]
  }

  /** Inserting keeps a sorted list sorted. */
  lemma InsertSorted(x: TopItem, s: seq<TopItem>)
    requires SortedDesc(s)
    ensures SortedDesc(Insert(x, s))
  {
    var k := InsertPos(x, s);
    var r := Insert(x, s);
    forall i, j | 0 <= i < j < |r|
      ensures r[i].value >= r[j].value
    {
      if j < k {
        assert r[i] == s[i] && r[j] == s[j];
      } else if j == k {
        assert r[i] == s[i];
      } else if i < k {
        assert r[i] == s[i] && r[j] == s[j - 1];
      } else if i == k {
        assert r[j] == s[j - 1];
      } else {
        assert r[i] == s[i - 1] && r[j] == s[j - 1];
      }
    }
  }

  /** `[...data].sort((a, b) => b.Value - a.Value)`: the rows by decreasing value. */
  function SortDesc(items: seq<TopItem>): (r: seq<TopItem>)
    ensures SortedDesc(r)
    ensures multiset(r) == multiset(items)
    ensures |r| == |items|
  {
    if items == [] then []
    else
      assert items == [items[0]] + items[1..];
      InsertSorted(items[0], SortDesc(items[1..]));
      Insert(items[0], SortDesc(items[1..]))
  }

  /** How many rows a top chart shows. */
  const TopLimit: nat := 10

  /** `.slice(0, 10)` of the sorted rows. */
  function TopRows(items: seq<TopItem>): (r: seq<TopItem>)
    ensures |r| == if |items| < TopLimit then |items| else TopLimit
    ensures SortedDesc(r)
    ensures multiset(r) <= multiset(items)
  {
    var sorted := SortDesc(items);
    var n := if |items| < TopLimit then |items| else TopLimit;
    assert sorted == sorted[..n] + sorted[n..];
    sorted[..n]
  }

  /** The shown rows are the largest ones: no row left out has a larger value than a shown row. */
  lemma TopRowsAreLargest(items: seq<TopItem>)
    ensures forall y, i :: y in multiset(items) - multiset(TopRows(items)) && 0 <= i < |TopRows(items)| ==>
      y.value <= TopRows(items)[i].value
  {
    var sorted := SortDesc(items);
    var rows := TopRows(items);
    var n := |rows|;
    assert sorted == rows + sorted[n..];
    assert multiset(items) - multiset(rows) == multiset(sorted[n..]) by {
      assert multiset(items) == multiset(rows) + multiset(sorted[n..]);
    }
    PrefixDominates(sorted, n);
  }

  /** In a sorted list every row of the first `n` is at least as large as any row after them. */
  lemma PrefixDominates(sorted: seq<TopItem>, n: nat)
    requires SortedDesc(sorted) && n <= |sorted|
    ensures forall y, i :: y in multiset(sorted[n..]) && 0 <= i < n ==> y.value <= sorted[i].value
  {
    forall y, i | y in multiset(sorted[n..]) && 0 <= i < n
      ensures y.value <= sorted[i].value
    {
      var k :| 0 <= k < |sorted[n..]| && sorted[n..][k] == y;
      assert sorted[n + k] == y;
    }
  }

  /** A list of ten rows or fewer is shown whole: every input row appears, as often as in the input. */
  lemma ShortListsShownWhole(items: seq<TopItem>)
    requires |items| <= TopLimit
    ensures multiset(TopRows(items)) == multiset(items)
  {
    assert SortDesc(items)[..|items|] == SortDesc(items);
  }

  /** `sortedData[0].Value` when there is a row, otherwise 0: the value the unit is chosen for. */
  function TopMax(rows: seq<TopItem>): real {
    if |rows| > 0 then rows[0].value else 0.0
  }

  /** The value the unit is chosen for is the largest of the whole list (0 for an empty list). */
  lemma TopMaxIsLargest(items: seq<TopItem>)
    ensures |items| == 0 ==> TopMax(TopRows(items)) == 0.0
    ensures forall i :: 0 <= i < |items| ==> items[i].value <= TopMax(TopRows(items))
    ensures |items| > 0 ==> exists i :: 0 <= i < |items| && items[i].value == TopMax(TopRows(items))
  {
    var sorted := SortDesc(items);
    if |items| > 0 {
      forall i | 0 <= i < |items|
        ensures items[i].value <= sorted[0].value
      {
        assert items[i] in multiset(sorted);
        var k :| 0 <= k < |sorted| && sorted[k] == items[i];
      }
      assert sorted[0] in multiset(items);
    }
  }

  /** `rows.map(f).reverse()`: the image of each row, the last row first. */
  function BottomUp<T>(rows: seq<TopItem>, f: TopItem -> T): (r: seq<T>)
    ensures |r| == |rows|
    ensures forall i :: 0 <= i < |rows| ==> r[i] == f(rows[|rows| - 1 - i])
  {
    seq(|rows|, i requires 0 <= i < |rows| => f(rows[|rows| - 1 - i]))
  }
}
