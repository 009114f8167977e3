/**
 * The coarse scan of Berry_Curvature_Dipole.__area_judge and the fine-grid
 * sums of the refinement loop. Batches come as given: batch -> rank -> the
 * rank's local k-point samples. The MPI sum-reduce is a sum over the ranks in
 * rank order, the hot-point gather a concatenation in rank order.
 */
module Scan {
  import opened Numerics
  import opened Kernel

  // ---------------------------------------------------------------------------
  // np.max / np.min of one k-point's table
  // ---------------------------------------------------------------------------

  /** The largest entry of a non-empty row. */
  function SeqMax(s: seq<real>): (r: real)
    requires |s| > 0
    ensures forall i :: 0 <= i < |s| ==> s[i] <= r
    ensures exists i :: 0 <= i < |s| && s[i] == r
  {
    if |s| == 1 then s[0]
    else
      var m := SeqMax(s[..|s| - 1]);
      if s[|s| - 1] > m then s[|s| - 1] else m
  }

  /** The smallest entry of a non-empty row. */
  function SeqMin(s: seq<real>): (r: real)
    requires |s| > 0
    ensures forall i :: 0 <= i < |s| ==> r <= s[i]
    ensures exists i :: 0 <= i < |s| && s[i] == r
  {
    if |s| == 1 then s[0]
    else
      var m := SeqMin(s[..|s| - 1]);
      if s[|s| - 1] < m then s[|s| - 1] else m
  }

  /** np.max over all (bin, column) entries of a table with at least one row. */
  function TensorMax(t: Tensor): (r: real)
    requires |t| > 0 && Shaped(t, |t|)
    ensures forall e, j :: 0 <= e < |t| && 0 <= j < Cols ==> t[e][j] <= r
    ensures exists e, j :: 0 <= e < |t| && 0 <= j < Cols && t[e][j] == r
  {
    var last := SeqMax(t[|t| - 1]);
    if |t| == 1 then last
    else
      var m := TensorMax(t[..|t| - 1]);
      if last > m then last else m
  }

  /** np.min over all (bin, column) entries of a table with at least one row. */
  function TensorMin(t: Tensor): (r: real)
    requires |t| > 0 && Shaped(t, |t|)
    ensures forall e, j :: 0 <= e < |t| && 0 <= j < Cols ==> r <= t[e][j]
    ensures exists e, j :: 0 <= e < |t| && 0 <= j < Cols && t[e][j] == r
  {
    var last := SeqMin(t[|t| - 1]);
    if |t| == 1 then last
    else
      var m := TensorMin(t[..|t| - 1]);
      if last < m then last else m
  }

  /** The flag test of __area_judge: max >= bar or min <= -bar. */
  predicate IsHot(t: Tensor, bar: real)
    requires |t| > 0 && Shaped(t, |t|)
  {
    TensorMax(t) >= bar || TensorMin(t) <= -bar
  }

  /** A table is flagged exactly when one of its entries reaches bar or -bar. */
  lemma HotIffSomeEntry(t: Tensor, bar: real)
    requires |t| > 0 && Shaped(t, |t|)
    ensures IsHot(t, bar) <==>
            exists e, j :: 0 <= e < |t| && 0 <= j < Cols && (t[e][j] >= bar || t[e][j] <= -bar)
  {
  }

  // ---------------------------------------------------------------------------
  // Scored k-points: a coordinate with its [E_num, 9] table
  // ---------------------------------------------------------------------------

  /** One row k_direct_coor[i] of a slice together with its table bcd_pl[i, :, :]. */
  datatype Point = Point(k: Vec3, table: Tensor)

  /** Every table has the given positive number of bins. */
  ghost predicate Tabled(ps: seq<Point>, rows: nat)
  {
    rows > 0 && forall i :: 0 <= i < |ps| ==> Shaped(ps[i].table, rows)
  }

  function Tables(ps: seq<Point>): (r: seq<Tensor>)
    ensures |r| == |ps| && forall i :: 0 <= i < |ps| ==> r[i] == ps[i].table
  {
    seq(|ps|, i requires 0 <= i < |ps| => ps[i].table)
  }

  /** The sum of the points' tables. */
  function Total(ps: seq<Point>, rows: nat): (r: Tensor)
    requires Tabled(ps, rows)
    ensures Shaped(r, rows)
  {
    Sum(Tables(ps), rows)
  }

  /** The k-point coordinates, in order. */
  function Coords(ps: seq<Point>): (r: seq<Vec3>)
    ensures |r| == |ps| && forall i :: 0 <= i < |ps| ==> r[i] == ps[i].k
  {
    seq(|ps|, i requires 0 <= i < |ps| => ps[i].k)
  }

  /** The flagged points, in the order they are visited. */
  function Hot(ps: seq<Point>, rows: nat, bar: real): (r: seq<Point>)
    requires Tabled(ps, rows)
    ensures Tabled(r, rows) && |r| <= |ps|
  {
    if |ps| == 0 then []
    else
      var last := ps[|ps| - 1];
      Hot(ps[..|ps| - 1], rows, bar) + (if IsHot(last.table, bar) then [last] else [])
  }

  /** The points kept in the baseline, in the order they are visited. */
  function Cold(ps: seq<Point>, rows: nat, bar: real): (r: seq<Point>)
    requires Tabled(ps, rows)
    ensures Tabled(r, rows) && |r| <= |ps|
  {
    if |ps| == 0 then []
    else
      var last := ps[|ps| - 1];
      Cold(ps[..|ps| - 1], rows, bar) + (if IsHot(last.table, bar) then [] else [last])
  }

  /**
   * The two selections split the points: every flagged point is in the hot
   * selection, every other point in the cold one, and each point in exactly one.
   */
  lemma SelectionsSplit(ps: seq<Point>, rows: nat, bar: real)
    requires Tabled(ps, rows)
    ensures multiset(Hot(ps, rows, bar)) + multiset(Cold(ps, rows, bar)) == multiset(ps)
    ensures |Hot(ps, rows, bar)| + |Cold(ps, rows, bar)| == |ps|
    ensures forall i :: 0 <= i < |Hot(ps, rows, bar)| ==> IsHot(Hot(ps, rows, bar)[i].table, bar)
    ensures forall i :: 0 <= i < |Cold(ps, rows, bar)| ==> !IsHot(Cold(ps, rows, bar)[i].table, bar)
  {
    SelectionFlags(ps, rows, bar);
    SelectionsCover(ps, rows, bar);
  }

  /** Every hot point is flagged and every cold point is not. */
  lemma {:induction false} SelectionFlags(ps: seq<Point>, rows: nat, bar: real)
    requires Tabled(ps, rows)
    ensures forall i :: 0 <= i < |Hot(ps, rows, bar)| ==> IsHot(Hot(ps, rows, bar)[i].table, bar)
    ensures forall i :: 0 <= i < |Cold(ps, rows, bar)| ==> !IsHot(Cold(ps, rows, bar)[i].table, bar)
  {
    if |ps| > 0 {
      var p := ps[..|ps| - 1];
      var x := ps[|ps| - 1];
      assert ps == p + [x];
      HotSnoc(p, x, rows, bar);
      ColdSnoc(p, x, rows, bar);
      SelectionFlags(p, rows, bar);
    }
  }

  /** Together the hot and cold selections hold exactly the input points, each as often as it occurs. */
  lemma {:induction false} SelectionsCover(ps: seq<Point>, rows: nat, bar: real)
    requires Tabled(ps, rows)
    ensures multiset(Hot(ps, rows, bar)) + multiset(Cold(ps, rows, bar)) == multiset(ps)
  {
    if |ps| > 0 {
      var p := ps[..|ps| - 1];
      var x := ps[|ps| - 1];
      assert ps == p + [x];
      HotSnoc(p, x, rows, bar);
      ColdSnoc(p, x, rows, bar);
      SelectionsCover(p, rows, bar);
      assert multiset(ps) == multiset(p) + multiset{x};
    }
  }

  /** A point of the input is selected as hot when it is flagged, and kept cold when it is not. */
  lemma SelectedBySelf(ps: seq<Point>, rows: nat, bar: real, i: nat)
    requires Tabled(ps, rows) && i < |ps|
    ensures IsHot(ps[i].table, bar) ==> ps[i] in Hot(ps, rows, bar)
    ensures !IsHot(ps[i].table, bar) ==> ps[i] in Cold(ps, rows, bar)
  {
    SelectionsSplit(ps, rows, bar);
    var x := ps[i];
    assert x in multiset(ps);
    assert x in multiset(Hot(ps, rows, bar)) || x in multiset(Cold(ps, rows, bar));
  }

  lemma SubZero(a: Tensor, rows: nat)
    requires Shaped(a, rows)
    ensures Sub(a, Zero(rows)) == a
  {
    TensorExt(Sub(a, Zero(rows)), a, rows);
  }

  lemma SubSub(a: Tensor, h: Tensor, x: Tensor, rows: nat)
    requires Shaped(a, rows) && Shaped(h, rows) && Shaped(x, rows)
    ensures Sub(Sub(a, h), x) == Sub(a, Add(h, x))
  {
    TensorExt(Sub(Sub(a, h), x), Sub(a, Add(h, x)), rows);
  }

  lemma SubAdd(c: Tensor, h: Tensor, rows: nat)
    requires Shaped(c, rows) && Shaped(h, rows)
    ensures Sub(Add(c, h), h) == c
  {
    TensorExt(Sub(Add(c, h), h), c, rows);
  }

  lemma AddSwapLast(c: Tensor, x: Tensor, h: Tensor, rows: nat)
    requires Shaped(c, rows) && Shaped(x, rows) && Shaped(h, rows)
    ensures Add(Add(c, x), h) == Add(Add(c, h), x)
  {
    TensorExt(Add(Add(c, x), h), Add(Add(c, h), x), rows);
  }

  lemma TotalEmpty(rows: nat)
    requires rows > 0
    ensures Total([], rows) == Zero(rows)
  {
    assert Tables([]) == [];
  }

  /** Appending one point adds its table. */
  lemma TotalSnoc(ps: seq<Point>, p: Point, rows: nat)
    requires Tabled(ps + [p], rows)
    ensures Tabled(ps, rows) && Shaped(p.table, rows)
    ensures Total(ps + [p], rows) == Add(Total(ps, rows), p.table)
  {
    assert forall i :: 0 <= i < |ps| ==> ps[i] == (ps + [p])[i];
    assert (ps + [p])[|ps|] == p;
    var ts := Tables(ps + [p]);
    assert ts[..|ts| - 1] == Tables(ps);
  }

  /**
   * The sum over a concatenation is the sum of the parts' sums: reducing
   * the ranks' partial sums gives the single-worker sum.
   */
  lemma TotalConcat(a: seq<Point>, b: seq<Point>, rows: nat)
    requires Tabled(a, rows) && Tabled(b, rows)
    ensures Tabled(a + b, rows)
    ensures Total(a + b, rows) == Add(Total(a, rows), Total(b, rows))
  {
    assert Tables(a + b) == Tables(a) + Tables(b);
    SumConcat(Tables(a), Tables(b), rows);
  }

  lemma HotSnoc(ps: seq<Point>, p: Point, rows: nat, bar: real)
    requires Tabled(ps + [p], rows)
    ensures Tabled(ps, rows) && Shaped(p.table, rows)
    ensures Hot(ps + [p], rows, bar) == Hot(ps, rows, bar) + (if IsHot(p.table, bar) then [p] else [])
  {
    assert (ps + [p])[|ps|] == p;
    assert (ps + [p])[..|ps|] == ps;
  }

  lemma ColdSnoc(ps: seq<Point>, p: Point, rows: nat, bar: real)
    requires Tabled(ps + [p], rows)
    ensures Tabled(ps, rows) && Shaped(p.table, rows)
    ensures Cold(ps + [p], rows, bar) == Cold(ps, rows, bar) + (if IsHot(p.table, bar) then [] else [p])
  {
    assert (ps + [p])[|ps|] == p;
    assert (ps + [p])[..|ps|] == ps;
  }

  /** Selecting the flagged points commutes with concatenation. */
  lemma {:induction false} HotConcat(a: seq<Point>, b: seq<Point>, rows: nat, bar: real)
    requires Tabled(a, rows) && Tabled(b, rows)
    ensures Tabled(a + b, rows)
    ensures Hot(a + b, rows, bar) == Hot(a, rows, bar) + Hot(b, rows, bar)
  {
    if |b| == 0 {
      assert a + b == a;
    } else {
      var b' := b[..|b| - 1];
      assert (a + b)[..|a + b| - 1] == a + b';
      HotConcat(a, b', rows, bar);
    }
  }

  /** Selecting the unflagged points commutes with concatenation. */
  lemma {:induction false} ColdConcat(a: seq<Point>, b: seq<Point>, rows: nat, bar: real)
    requires Tabled(a, rows) && Tabled(b, rows)
    ensures Tabled(a + b, rows)
    ensures Cold(a + b, rows, bar) == Cold(a, rows, bar) + Cold(b, rows, bar)
  {
    if |b| == 0 {
      assert a + b == a;
    } else {
      var b' := b[..|b| - 1];
      assert (a + b)[..|a + b| - 1] == a + b';
      ColdConcat(a, b', rows, bar);
    }
  }

  /**
   * Every point is either flagged or kept, never both: the baseline plus the
   * flagged points' tables is the sum over all points.
   */
  lemma {:induction false} Partition(ps: seq<Point>, rows: nat, bar: real)
    requires Tabled(ps, rows)
    ensures Add(Total(Cold(ps, rows, bar), rows), Total(Hot(ps, rows, bar), rows)) == Total(ps, rows)
  {
    if |ps| == 0 {
      TotalEmpty(rows);
      AddZeroRight(Zero(rows), rows);
    } else {
      var p := ps[..|ps| - 1];
      var x := ps[|ps| - 1];
      assert ps == p + [x];
      HotSnoc(p, x, rows, bar);
      ColdSnoc(p, x, rows, bar);
      Partition(p, rows, bar);
      var cs := Cold(p, rows, bar);
      var hs := Hot(p, rows, bar);
      TotalSnoc(p, x, rows);
      if IsHot(x.table, bar) {
        TotalSnoc(hs, x, rows);
        assert Hot(ps, rows, bar) == hs + [x];
        assert Cold(ps, rows, bar) == cs;
        AddAssoc(Total(cs, rows), Total(hs, rows), x.table, rows);
      } else {
        TotalSnoc(cs, x, rows);
        assert Hot(ps, rows, bar) == hs;
        assert Cold(ps, rows, bar) == cs + [x];
        AddSwapLast(Total(cs, rows), x.table, Total(hs, rows), rows);
      }
    }
  }

  /**
   * No double counting: removing every flagged table once from the full sum
   * leaves exactly the sum over the points that were not flagged.
   */
  lemma BaselineExcludesHot(ps: seq<Point>, rows: nat, bar: real)
    requires Tabled(ps, rows)
    ensures Sub(Total(ps, rows), Total(Hot(ps, rows, bar), rows)) == Total(Cold(ps, rows, bar), rows)
  {
    Partition(ps, rows, bar);
    SubAdd(Total(Cold(ps, rows, bar), rows), Total(Hot(ps, rows, bar), rows), rows);
  }

  // ---------------------------------------------------------------------------
  // From samples to scored points
  // ---------------------------------------------------------------------------

  /** Each sample's coordinate with the kernel's table for it. */
  function Score(w: Window, ks: seq<KSample>): (ps: seq<Point>)
    requires ValidWindow(w) && AllWellFormed(ks)
    ensures |ps| == |ks| && Tabled(ps, w.num)
    ensures forall i :: 0 <= i < |ks| ==> ps[i] == Point(ks[i].k, PointTensor(w, ks[i]))
  {
    seq(|ks|, i requires 0 <= i < |ks| => Point(ks[i].k, PointTensor(w, ks[i])))
  }

  lemma ScoreConcat(w: Window, a: seq<KSample>, b: seq<KSample>)
    requires ValidWindow(w) && AllWellFormed(a) && AllWellFormed(b)
    ensures AllWellFormed(a + b)
    ensures Score(w, a + b) == Score(w, a) + Score(w, b)
  {
    assert AllWellFormed(a + b);
    var l := Score(w, a + b);
    var r := Score(w, a) + Score(w, b);
    forall i | 0 <= i < |a + b|
      ensures l[i] == r[i]
    {
      if i < |a| {
        assert (a + b)[i] == a[i];
      } else {
        assert (a + b)[i] == b[i - |a|];
      }
    }
  }

  /** The sum of the tables of all the given samples. */
  function AllSum(w: Window, ks: seq<KSample>): (r: Tensor)
    requires ValidWindow(w) && AllWellFormed(ks)
    ensures Shaped(r, w.num)
  {
    Total(Score(w, ks), w.num)
  }

  /** The sum of the tables of the samples that are not flagged. */
  function ColdSum(w: Window, ks: seq<KSample>, bar: real): (r: Tensor)
    requires ValidWindow(w) && AllWellFormed(ks)
    ensures Shaped(r, w.num)
  {
    Total(Cold(Score(w, ks), w.num, bar), w.num)
  }

  /** The coordinates of the flagged samples, in order. */
  function HotCoords(w: Window, ks: seq<KSample>, bar: real): (r: seq<Vec3>)
    requires ValidWindow(w) && AllWellFormed(ks)
    ensures |r| <= |ks|
  {
    Coords(Hot(Score(w, ks), w.num, bar))
  }

  lemma AllSumConcat(w: Window, a: seq<KSample>, b: seq<KSample>)
    requires ValidWindow(w) && AllWellFormed(a) && AllWellFormed(b)
    ensures AllWellFormed(a + b)
    ensures AllSum(w, a + b) == Add(AllSum(w, a), AllSum(w, b))
  {
    ScoreConcat(w, a, b);
    TotalConcat(Score(w, a), Score(w, b), w.num);
  }

  lemma ColdSumConcat(w: Window, a: seq<KSample>, b: seq<KSample>, bar: real)
    requires ValidWindow(w) && AllWellFormed(a) && AllWellFormed(b)
    ensures AllWellFormed(a + b)
    ensures ColdSum(w, a + b, bar) == Add(ColdSum(w, a, bar), ColdSum(w, b, bar))
  {
    ScoreConcat(w, a, b);
    ColdConcat(Score(w, a), Score(w, b), w.num, bar);
    TotalConcat(Cold(Score(w, a), w.num, bar), Cold(Score(w, b), w.num, bar), w.num);
  }

  lemma HotCoordsConcat(w: Window, a: seq<KSample>, b: seq<KSample>, bar: real)
    requires ValidWindow(w) && AllWellFormed(a) && AllWellFormed(b)
    ensures AllWellFormed(a + b)
    ensures HotCoords(w, a + b, bar) == HotCoords(w, a, bar) + HotCoords(w, b, bar)
  {
    ScoreConcat(w, a, b);
    HotConcat(Score(w, a), Score(w, b), w.num, bar);
    var h := Hot(Score(w, a), w.num, bar);
    var g := Hot(Score(w, b), w.num, bar);
    assert Coords(h + g) == Coords(h) + Coords(g);
  }

  // ---------------------------------------------------------------------------
  // Batches and ranks
  // ---------------------------------------------------------------------------

  /** One batch of the k-point generator, split into the ranks' local slices. */
  type Batch = seq<seq<KSample>>

  ghost predicate BatchWellFormed(b: Batch)
  {
    forall r :: 0 <= r < |b| ==> AllWellFormed(b[r])
  }

  ghost predicate BatchesWellFormed(bs: seq<Batch>)
  {
    forall i :: 0 <= i < |bs| ==> BatchWellFormed(bs[i])
  }

  /** The samples of one batch, rank after rank. */
  function Gather(b: Batch): (r: seq<KSample>)
    requires BatchWellFormed(b)
    ensures AllWellFormed(r)
  {
    if |b| == 0 then [] else Gather(b[..|b| - 1]) + b[|b| - 1]
  }

  /** The samples of all batches, batch after batch. */
  function Flatten(bs: seq<Batch>): (r: seq<KSample>)
    requires BatchesWellFormed(bs)
    ensures AllWellFormed(r)
  {
    if |bs| == 0 then [] else Flatten(bs[..|bs| - 1]) + Gather(bs[|bs| - 1])
  }

  lemma GatherSnoc(b: Batch, r: nat)
    requires BatchWellFormed(b) && r < |b|
    ensures BatchWellFormed(b[..r + 1]) && BatchWellFormed(b[..r])
    ensures Gather(b[..r + 1]) == Gather(b[..r]) + b[r]
  {
    assert b[..r + 1][..r] == b[..r];
  }

  lemma FlattenSnoc(bs: seq<Batch>, i: nat)
    requires BatchesWellFormed(bs) && i < |bs|
    ensures BatchesWellFormed(bs[..i + 1]) && BatchesWellFormed(bs[..i])
    ensures Flatten(bs[..i + 1]) == Flatten(bs[..i]) + Gather(bs[i])
  {
    assert bs[..i + 1][..i] == bs[..i];
  }

  // ---------------------------------------------------------------------------
  // The rank-local steps
  // ---------------------------------------------------------------------------

  /** bcd_pl[i, :, :] read back as a table. */
  function Slice(t: array3<real>, i: nat): (r: Tensor)
    reads t
    requires i < t.Length0 && t.Length2 == Cols
    ensures Shaped(r, t.Length1)
    ensures forall e, j :: 0 <= e < t.Length1 && 0 <= j < Cols ==> r[e][j] == t[i, e, j]
  {
    seq(t.Length1, e requires 0 <= e < t.Length1 reads t =>
      seq(Cols, j requires 0 <= j < Cols reads t => t[i, e, j]))
  }

  /** The kernel over one rank's slice, each table paired with its k-point. */
  method KernelPoints(w: Window, ks: seq<KSample>) returns (ps: seq<Point>)
    requires ValidWindow(w) && AllWellFormed(ks)
    ensures ps == Score(w, ks)
  {
    var bcdPl := GetBcdPl(w, ks);
    ps := seq(|ks|, i requires 0 <= i < |ks| reads bcdPl => Point(ks[i].k, Slice(bcdPl, i)));
    forall i | 0 <= i < |ks|
      ensures ps[i].table == PointTensor(w, ks[i])
    {
      TensorExt(ps[i].table, PointTensor(w, ks[i]), w.num);
    }
  }

  lemma CoordsSnoc(ps: seq<Point>, p: Point)
    ensures Coords(ps + [p]) == Coords(ps) + [p.k]
  {
  }

  lemma HotStep(ps: seq<Point>, i: nat, rows: nat, bar: real)
    requires Tabled(ps, rows) && i < |ps|
    ensures Tabled(ps[..i], rows) && Tabled(ps[..i + 1], rows) && Shaped(ps[i].table, rows)
    ensures Hot(ps[..i + 1], rows, bar) ==
      if IsHot(ps[i].table, bar) then Hot(ps[..i], rows, bar) + [ps[i]]
      else Hot(ps[..i], rows, bar)
  {
    assert ps[..i + 1] == ps[..i] + [ps[i]];
    HotSnoc(ps[..i], ps[i], rows, bar);
  }

  /**
   * The loop of __area_judge over one slice: start from the sum of all the
   * tables, subtract each flagged table once and record its coordinate.
   */
  method JudgePoints(ps: seq<Point>, rows: nat, bar: real) returns (local: Tensor, points: seq<Vec3>)
    requires Tabled(ps, rows)
    ensures local == Total(Cold(ps, rows, bar), rows)
    ensures points == Coords(Hot(ps, rows, bar))
  {
    points := [];
    ghost var hot: seq<Point> := [];
    local := Sum(Tables(ps), rows);
    ghost var all := local;
    ghost var hotSum := Zero(rows);
    TotalEmpty(rows);
    SubZero(local, rows);
    var i := 0;
    assert hot == Hot(ps[..0], rows, bar);
    while i < |ps|
      invariant 0 <= i <= |ps|
      invariant hot == Hot(ps[..i], rows, bar)
      invariant points == Coords(hot)
      invariant hotSum == Total(hot, rows)
      invariant local == Sub(all, hotSum)
    {
      HotStep(ps, i, rows, bar);
      var flag := false;
      if IsHot(ps[i].table, bar) {
        flag := true;
        TotalSnoc(hot, ps[i], rows);
        SubSub(all, hotSum, ps[i].table, rows);
        local := Sub(local, ps[i].table);
        hotSum := Add(hotSum, ps[i].table);
      }
      if flag {
        CoordsSnoc(hot, ps[i]);
        points := points + [ps[i].k];
        hot := hot + [ps[i]];
      }
      assert hot == Hot(ps[..i + 1], rows, bar);
      i := i + 1;
    }
    assert ps[..|ps|] == ps;
    BaselineExcludesHot(ps, rows, bar);
  }

  /** One rank's share of __area_judge for one batch. */
  method JudgeLocal(w: Window, ks: seq<KSample>, bar: real) returns (local: Tensor, points: seq<Vec3>)
    requires ValidWindow(w) && AllWellFormed(ks)
    ensures local == ColdSum(w, ks, bar)
    ensures points == HotCoords(w, ks, bar)
  {
    var ps := KernelPoints(w, ks);
    local, points := JudgePoints(ps, w.num, bar);
  }

  /** One rank's contribution to a refinement batch: bcd_pl.sum(axis=0). */
  method SumLocal(w: Window, ks: seq<KSample>) returns (local: Tensor)
    requires ValidWindow(w) && AllWellFormed(ks)
    ensures local == AllSum(w, ks)
  {
    var ps := KernelPoints(w, ks);
    local := Sum(Tables(ps), w.num);
  }

  // ---------------------------------------------------------------------------
  // The scans over all batches
  // ---------------------------------------------------------------------------

  /**
   * __area_judge: every rank judges its slice of every batch; the baselines
   * are sum-reduced and the flagged coordinates gathered in rank order, and
   * both are accumulated over the batches.
   */
  method AreaJudge(w: Window, batches: seq<Batch>, bar: real) returns (total: Tensor, points: seq<Vec3>)
    requires ValidWindow(w) && BatchesWellFormed(batches)
    ensures total == ColdSum(w, Flatten(batches), bar)
    ensures points == HotCoords(w, Flatten(batches), bar)
  {
    total := Zero(w.num);
    points := [];
    assert batches[..0] == [];
    assert Score(w, []) == [];
    TotalEmpty(w.num);
    var i := 0;
    while i < |batches|
      invariant 0 <= i <= |batches|
      invariant BatchesWellFormed(batches[..i])
      invariant total == ColdSum(w, Flatten(batches[..i]), bar)
      invariant points == HotCoords(w, Flatten(batches[..i]), bar)
    {
      var batch := batches[i];
      var bcdTemp, pointsLocal := JudgeBatch(w, batch, bar);
      FlattenSnoc(batches, i);
      ColdSumConcat(w, Flatten(batches[..i]), Gather(batch), bar);
      HotCoordsConcat(w, Flatten(batches[..i]), Gather(batch), bar);
      total := Add(total, bcdTemp);
      points := points + pointsLocal;
      i := i + 1;
    }
    assert batches[..|batches|] == batches;
  }

  /** One batch of __area_judge: COMM.reduce of the baselines and of the flagged points. */
  method JudgeBatch(w: Window, batch: Batch, bar: real) returns (bcdTemp: Tensor, pointsLocal: seq<Vec3>)
    requires ValidWindow(w) && BatchWellFormed(batch)
    ensures bcdTemp == ColdSum(w, Gather(batch), bar)
    ensures pointsLocal == HotCoords(w, Gather(batch), bar)
  {
    bcdTemp := Zero(w.num);
    pointsLocal := [];
    assert batch[..0] == [];
    assert Score(w, []) == [];
    TotalEmpty(w.num);
    var r := 0;
    while r < |batch|
      invariant 0 <= r <= |batch|
      invariant BatchWellFormed(batch[..r])
      invariant bcdTemp == ColdSum(w, Gather(batch[..r]), bar)
      invariant pointsLocal == HotCoords(w, Gather(batch[..r]), bar)
    {
      var local, found := JudgeLocal(w, batch[r], bar);
      GatherSnoc(batch, r);
      ColdSumConcat(w, Gather(batch[..r]), batch[r], bar);
      HotCoordsConcat(w, Gather(batch[..r]), batch[r], bar);
      bcdTemp := Add(bcdTemp, local);
      pointsLocal := pointsLocal + found;
      r := r + 1;
    }
    assert batch[..|batch|] == batch;
  }

  /** One batch of a refinement step: COMM.reduce of the ranks' sums. */
  method SumBatch(w: Window, batch: Batch) returns (bcdTemp: Tensor)
    requires ValidWindow(w) && BatchWellFormed(batch)
    ensures bcdTemp == AllSum(w, Gather(batch))
  {
    bcdTemp := Zero(w.num);
    assert batch[..0] == [];
    assert Score(w, []) == [];
    TotalEmpty(w.num);
    var r := 0;
    while r < |batch|
      invariant 0 <= r <= |batch|
      invariant BatchWellFormed(batch[..r])
      invariant bcdTemp == AllSum(w, Gather(batch[..r]))
    {
      var local := SumLocal(w, batch[r]);
      GatherSnoc(batch, r);
      AllSumConcat(w, Gather(batch[..r]), batch[r]);
      bcdTemp := Add(bcdTemp, local);
      r := r + 1;
    }
    assert batch[..|batch|] == batch;
  }

  /**
   * The body of one refinement step: the tables of every fine-grid point,
   * summed per rank, reduced per batch and accumulated over the batches.
   */
  method FineSum(w: Window, batches: seq<Batch>) returns (total: Tensor)
    requires ValidWindow(w) && BatchesWellFormed(batches)
    ensures total == AllSum(w, Flatten(batches))
  {
    total := Zero(w.num);
    assert batches[..0] == [];
    assert Score(w, []) == [];
    TotalEmpty(w.num);
    var i := 0;
    while i < |batches|
      invariant 0 <= i <= |batches|
      invariant BatchesWellFormed(batches[..i])
      invariant total == AllSum(w, Flatten(batches[..i]))
    {
      var bcdTemp := SumBatch(w, batches[i]);
      FlattenSnoc(batches, i);
      AllSumConcat(w, Flatten(batches[..i]), Gather(batches[i]));
      total := Add(total, bcdTemp);
      i := i + 1;
    }
    assert batches[..|batches|] == batches;
  }
}
