/**
 * `calc_total_balance` (app/batch_calc.py): the balances of one snapshot of
 * the accounts are split into consecutive index ranges of ten, each range is
 * summed on its own and the partial sums are added up in range order. The
 * worker pool is modelled by computing the partial sums one after another,
 * which gives the same values since each partial sum reads only the snapshot.
 */
module BatchCalc {
  import opened Models

  /** Number of indices per range. */
  const BatchSize: nat := 10

  /** A half-open index range `[start, end)`, as the Python pairs `(i, i + 10)`. */
  type IndexRange = (int, int)

  /** The plain sum of a sequence of balances: the reference the batched sum must agree with. */
  function Sum(xs: seq<real>): real
  {
    if |xs| == 0 then 0.0 else Sum(xs[..|xs| - 1]) + xs[|xs| - 1]
  }

  /** Splitting a sequence anywhere splits its sum. */
  lemma {:induction false} SumSplit(xs: seq<real>, i: nat)
    requires i <= |xs|
    ensures Sum(xs) == Sum(xs[..i]) + Sum(xs[i..])
    decreases |xs|
  {
    if i < |xs| {
      var init := xs[..|xs| - 1];
      SumSplit(init, i);
      assert init[..i] == xs[..i];
      assert xs[i..][..|xs[i..]| - 1] == init[i..];
    } else {
      assert xs[..i] == xs;
      assert xs[i..] == [];
    }
  }

  /** `min(x, n)`: where the `i < n` guard cuts a range off. */
  function Clip(x: int, n: int): int
  {
    if x < n then x else n
  }

  /** The balances of the snapshot, in the order the accounts were read. */
  function Balances(accounts: seq<Account>): (b: seq<real>)
    ensures |b| == |accounts|
    ensures forall i :: 0 <= i < |b| ==> b[i] == accounts[i].balance
  {
    seq(|accounts|, i requires 0 <= i < |accounts| => accounts[i].balance)
  }

  /** The ranges `(i, i + 10)` for `i` in `range(start, n, 10)`. */
  function RangesFrom(start: nat, n: nat): seq<IndexRange>
    decreases n - start
  {
    if start >= n then [] else [(start, start + BatchSize)] + RangesFrom(start + BatchSize, n)
  }

  /** The index ranges the Python builds for `n` balances. */
  function IndexRanges(n: nat): seq<IndexRange>
  {
    RangesFrom(0, n)
  }

  lemma {:induction false} RangesFromShape(start: nat, n: nat)
    ensures var r := RangesFrom(start, n);
      && |r| == (if start >= n then 0 else (n - start + BatchSize - 1) / BatchSize)
      && forall k :: 0 <= k < |r| ==> r[k] == (start + BatchSize * k, start + BatchSize * k + BatchSize)
    decreases n - start
  {
    if start < n {
      RangesFromShape(start + BatchSize, n);
      var r := RangesFrom(start, n);
      var rest := RangesFrom(start + BatchSize, n);
      assert r == [(start, start + BatchSize)] + rest;
      forall k | 0 <= k < |r|
        ensures r[k] == (start + BatchSize * k, start + BatchSize * k + BatchSize)
      {
        if k > 0 {
          assert r[k] == rest[k - 1];
        }
      }
    }
  }

  /**
   * The ranges start at 0, 10, 20, ..., every start lies below `n`, each
   * range spans ten indices, and there are `ceil(n / 10)` of them; no
   * balances means no ranges.
   */
  lemma IndexRangesShape(n: nat)
    ensures var r := IndexRanges(n);
      && |r| == (n + BatchSize - 1) / BatchSize
      && (n == 0 <==> r == [])
      && forall k :: 0 <= k < |r| ==> r[k].0 == BatchSize * k && r[k].1 == r[k].0 + BatchSize && r[k].0 < n
  {
    RangesFromShape(0, n);
  }

  /** Whether the half-open range contains index `i`. */
  predicate Contains(range: IndexRange, i: int)
  {
    range.0 <= i < range.1
  }

  /** Whether index `i` lies in some range once the range is clipped to `[0, n)`. */
  ghost predicate Covered(ranges: seq<IndexRange>, n: nat, i: int)
  {
    exists k :: 0 <= k < |ranges| && ranges[k].0 <= i < Clip(ranges[k].1, n)
  }

  /**
   * The ranges are pairwise disjoint and, clipped to `n`, cover exactly the
   * indices `[0, n)`: every index is summed by exactly one range.
   */
  lemma RangesPartition(n: nat)
    ensures var r := IndexRanges(n);
      && (forall k1, k2 :: 0 <= k1 < k2 < |r| ==> r[k1].1 <= r[k2].0)
      && (forall i :: 0 <= i < n <==> Covered(r, n, i))
      && (forall k, i :: 0 <= k < |r| && Contains(r[k], i) ==> k == i / BatchSize)
  {
    var r := IndexRanges(n);
    IndexRangesShape(n);
    forall i | 0 <= i < n
      ensures Covered(r, n, i)
    {
      var k := i / BatchSize;
      assert r[k].0 <= i < Clip(r[k].1, n);
    }
  }

  /** What `process_range(start, end)` returns: the balances at indices `[start, end)` below `n`. */
  function RangeSum(balances: seq<real>, range: IndexRange): real
    requires 0 <= range.0 <= range.1
  {
    Sum(balances[Clip(range.0, |balances|)..Clip(range.1, |balances|)])
  }

  /**
   * `process_range`: walks every index of the range and adds the balance
   * of each index the `i < n` guard admits.
   */
  method ProcessRange(balances: seq<real>, start: int, end: int) returns (total: real)
    requires 0 <= start <= end
    ensures total == Sum(balances[Clip(start, |balances|)..Clip(end, |balances|)])
  {
    var n := |balances|;
    total := 0.0;
    var i := start;
    while i < end
      invariant start <= i <= end
      invariant total == Sum(balances[Clip(start, n)..Clip(i, n)])
    {
      if i < n {
        var lo := Clip(start, n);
        assert balances[lo..i + 1][..i - lo] == balances[lo..i];
        total := total + balances[i];
      }
      i := i + 1;
    }
  }

  /** Submits every range in order and collects its partial sum, as the list of futures does. */
  method GatherPartials(balances: seq<real>) returns (partials: seq<real>)
    ensures var ranges := IndexRanges(|balances|);
      && |partials| == |ranges|
      && forall k :: 0 <= k < |ranges| ==> 0 <= ranges[k].0 <= ranges[k].1 && partials[k] == RangeSum(balances, ranges[k])
  {
    var ranges := IndexRanges(|balances|);
    IndexRangesShape(|balances|);
    partials := [];
    var k := 0;
    while k < |ranges|
      invariant 0 <= k <= |ranges|
      invariant |partials| == k
      invariant forall j :: 0 <= j < k ==> partials[j] == RangeSum(balances, ranges[j])
    {
      var p := ProcessRange(balances, ranges[k].0, ranges[k].1);
      partials := partials + [p];
      k := k + 1;
    }
  }

  /** Adds up the partial sums in range order, starting from 0. */
  method Accumulate(partials: seq<real>) returns (total: real)
    ensures total == Sum(partials)
  {
    total := 0.0;
    var k := 0;
    while k < |partials|
      invariant 0 <= k <= |partials|
      invariant total == Sum(partials[..k])
    {
      assert partials[..k + 1][..k] == partials[..k];
      total := total + partials[k];
      k := k + 1;
    }
    assert partials[..k] == partials;
  }

  /** The first `j` partial sums add up to the balances below index `10 * j`. */
  lemma {:induction false} PartialPrefixSum(balances: seq<real>, partials: seq<real>, j: nat)
    requires |partials| == |IndexRanges(|balances|)|
    requires forall k :: 0 <= k < |partials| ==> 0 <= IndexRanges(|balances|)[k].0 <= IndexRanges(|balances|)[k].1
    requires forall k :: 0 <= k < |partials| ==> partials[k] == RangeSum(balances, IndexRanges(|balances|)[k])
    requires j <= |partials|
    ensures Sum(partials[..j]) == Sum(balances[..Clip(BatchSize * j, |balances|)])
  {
    var n := |balances|;
    IndexRangesShape(n);
    if j == 0 {
      assert partials[..0] == [];
      assert balances[..0] == [];
    } else {
      PartialPrefixSum(balances, partials, j - 1);
      var lo := Clip(BatchSize * (j - 1), n);
      var hi := Clip(BatchSize * j, n);
      assert partials[..j][..j - 1] == partials[..j - 1];
      var prefix := balances[..hi];
      SumSplit(prefix, lo);
      assert prefix[..lo] == balances[..lo];
      assert prefix[lo..] == balances[lo..hi];
    }
  }

  /** The partial sums of all ranges add up to the plain sum of the balances. */
  lemma PartialSumsAddUp(balances: seq<real>, partials: seq<real>)
    requires |partials| == |IndexRanges(|balances|)|
    requires forall k :: 0 <= k < |partials| ==> 0 <= IndexRanges(|balances|)[k].0 <= IndexRanges(|balances|)[k].1
    requires forall k :: 0 <= k < |partials| ==> partials[k] == RangeSum(balances, IndexRanges(|balances|)[k])
    ensures Sum(partials) == Sum(balances)
  {
    var n := |balances|;
    IndexRangesShape(n);
    PartialPrefixSum(balances, partials, |partials|);
    assert partials[..|partials|] == partials;
    assert Clip(BatchSize * |partials|, n) == n;
    assert balances[..n] == balances;
  }

  /**
   * `calc_total_balance`: reads the balances of the snapshot once, sums
   * each range and adds the partial sums; the result is the plain sum of
   * all balances, and 0 for an empty snapshot.
   */
  method CalcTotalBalance(accounts: seq<Account>) returns (total: real)
    ensures total == Sum(Balances(accounts))
    ensures |accounts| == 0 ==> total == 0.0
  {
    var balances := Balances(accounts);
    var partials := GatherPartials(balances);
    total := Accumulate(partials);
    PartialSumsAddUp(balances, partials);
  }
}
