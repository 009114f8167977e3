/**
 * The per-k-point kernel of Berry_Curvature_Dipole.get_bcd_pl: for every
 * k-point and band, the energy bin of the band, its Berry-curvature vector
 * from the inter-band velocity matrix elements, and the nine products
 * Re(v[a,n,n]) * bc[b] added into the band's bin row.
 */
module Kernel {
  import opened Numerics

  /** The energy axis: E_min, E_max and the bin count E_num. */
  datatype Window = Window(eMin: real, eMax: real, num: int)

  /**
   * A window the kernel can bin into: at least one row, and a non-zero
   * bin width (E_max - E_min) / E_num.
   */
  predicate ValidWindow(w: Window)
  {
    w.num >= 1 && w.eMax != w.eMin
  }

  /** delta_E = (E_max - E_min) / E_num: the bin width used for binning. */
  function DeltaE(w: Window): (d: real)
    requires ValidWindow(w)
    ensures d != 0.0
    ensures w.eMin < w.eMax ==> d > 0.0
  {
    (w.eMax - w.eMin) / w.num as real
  }

  /**
   * The row a band of energy e lands in: n = int((e - E_min) / delta_E),
   * kept only when 0 <= n <= E_num - 1.
   */
  function Bin(w: Window, e: real): (r: Option<nat>)
    requires ValidWindow(w)
    ensures r.Some? ==> r.value < w.num
  {
    var n := Trunc((e - w.eMin) / DeltaE(w));
    if n <= w.num - 1 && n >= 0 then Some(n) else None
  }

  /** What the solver returns for one k-point: energies[B] and velocity[3, B, B]. */
  datatype KSample = KSample(k: Vec3, energies: seq<real>, vel: seq<seq<seq<Complex>>>)

  function Bands(s: KSample): nat
  {
    |s.energies|
  }

  ghost predicate Square(m: seq<seq<Complex>>, b: nat)
  {
    |m| == b && forall i :: 0 <= i < b ==> |m[i]| == b
  }

  ghost predicate WellFormed(s: KSample)
  {
    |s.vel| == 3 && forall a :: 0 <= a < 3 ==> Square(s.vel[a], Bands(s))
  }

  ghost predicate AllWellFormed(ks: seq<KSample>)
  {
    forall i :: 0 <= i < |ks| ==> WellFormed(ks[i])
  }

  /** E_bar: partners closer in energy than this are treated as degenerate. */
  const DegeneracyFloor: real := 0.0001

  /**
   * The contribution of partner band m to the curvature vector of band n:
   * component c pairs velocity axes (c+1)%3 and (c+2)%3, i.e. (1,2), (2,0), (0,1).
   */
  function Term(s: KSample, n: nat, m: nat): (r: seq<real>)
    requires WellFormed(s) && n < Bands(s) && m < Bands(s)
    ensures |r| == 3
    ensures Gap(s, n, m) <= DegeneracyFloor ==> r == [0.0, 0.0, 0.0]
    ensures m == n ==> r == [0.0, 0.0, 0.0]
  {
    var eIn := Gap(s, n, m);
    var c := eIn * eIn;
    if Abs(eIn) > DegeneracyFloor then
      [ ReTimesTwoIOver(Mul(s.vel[1][n][m], s.vel[2][m][n]), c),
        ReTimesTwoIOver(Mul(s.vel[2][n][m], s.vel[0][m][n]), c),
        ReTimesTwoIOver(Mul(s.vel[0][n][m], s.vel[1][m][n]), c) ]
    else
      [0.0, 0.0, 0.0]
  }

  /** E_in = |E_m - E_n|, the energy gap between band n and partner m. */
  function Gap(s: KSample, n: nat, m: nat): (g: real)
    requires n < Bands(s) && m < Bands(s)
    ensures g >= 0.0
  {
    Abs(s.energies[m] - s.energies[n])
  }

  lemma PositiveSquare(x: real)
    requires x > 0.0
    ensures x * x > 0.0
  {
  }

  function V3Add(a: seq<real>, b: seq<real>): (r: seq<real>)
    requires |a| == 3 && |b| == 3
  {
    [a[0] + b[0], a[1] + b[1], a[2] + b[2]]
  }

  /** bc_nband after partners 0 .. m-1 have been visited. */
  function CurvatureUpTo(s: KSample, n: nat, m: nat): (r: seq<real>)
    requires WellFormed(s) && n < Bands(s) && m <= Bands(s)
    ensures |r| == 3
  {
    if m == 0 then [0.0, 0.0, 0.0] else V3Add(CurvatureUpTo(s, n, m - 1), Term(s, n, m - 1))
  }

  /** The Berry-curvature vector of band n. */
  function Curvature(s: KSample, n: nat): (r: seq<real>)
    requires WellFormed(s) && n < Bands(s)
    ensures |r| == 3
  {
    CurvatureUpTo(s, n, Bands(s))
  }

  /**
   * The nine products Re(v[a,n,n]) * bc[b] for a given curvature vector bc,
   * column j holding axis a = j / 3 and component b = j % 3.
   */
  function RowFrom(s: KSample, n: nat, bc: seq<real>): (r: seq<real>)
    requires WellFormed(s) && n < Bands(s) && |bc| == 3
    ensures |r| == Cols
  {
    seq(Cols, j requires 0 <= j < Cols => s.vel[j / 3][n][n].re * bc[j % 3])
  }

  /** The nine values band n adds to its bin row. */
  function BandRow(s: KSample, n: nat): (r: seq<real>)
    requires WellFormed(s) && n < Bands(s)
    ensures |r| == Cols
  {
    RowFrom(s, n, Curvature(s, n))
  }

  /**
   * Column a*3+b of a band's row is the product of axis a's group velocity
   * with curvature component b (BandRow is RowFrom at the band's own curvature).
   */
  lemma RowFromColumn(s: KSample, n: nat, bc: seq<real>, a: nat, b: nat)
    requires WellFormed(s) && n < Bands(s) && |bc| == 3 && a < 3 && b < 3
    ensures RowFrom(s, n, bc)[a * 3 + b] == s.vel[a][n][n].re * bc[b]
  {
    var j := a * 3 + b;
    assert j / 3 == a && j % 3 == b;
  }

  /** Adds a 9-entry row into row n of a table. */
  function AddRow(t: Tensor, n: nat, row: seq<real>): (r: Tensor)
    requires n < |t| && Shaped(t, |t|) && |row| == Cols
    ensures Shaped(r, |t|)
    ensures forall e, j :: 0 <= e < |t| && 0 <= j < Cols ==>
              r[e][j] == if e == n then t[e][j] + row[j] else t[e][j]
  {
    t[n := seq(Cols, j requires 0 <= j < Cols => t[n][j] + row[j])]
  }

  /** The table of one k-point after bands 0 .. nb-1 have been visited. */
  function TensorUpTo(w: Window, s: KSample, nb: nat): (r: Tensor)
    requires ValidWindow(w) && WellFormed(s) && nb <= Bands(s)
    ensures Shaped(r, w.num)
  {
    if nb == 0 then Zero(w.num)
    else
      var t := TensorUpTo(w, s, nb - 1);
      match Bin(w, s.energies[nb - 1])
      case None => t
      case Some(n) => AddRow(t, n, BandRow(s, nb - 1))
  }

  /** A band that lands in bin n adds its row to row n and changes nothing else. */
  lemma TensorStepIn(w: Window, s: KSample, nb: nat, n: nat)
    requires ValidWindow(w) && WellFormed(s) && nb < Bands(s)
    requires Bin(w, s.energies[nb]) == Some(n)
    ensures forall e, j :: 0 <= e < w.num && 0 <= j < Cols ==>
              TensorUpTo(w, s, nb + 1)[e][j] ==
                if e == n then TensorUpTo(w, s, nb)[e][j] + RowFrom(s, nb, Curvature(s, nb))[j]
                else TensorUpTo(w, s, nb)[e][j]
  {
    var t := TensorUpTo(w, s, nb);
    var row := BandRow(s, nb);
    assert TensorUpTo(w, s, nb + 1) == AddRow(t, n, row);
  }

  /** A band whose bin falls outside [0, E_num - 1] leaves the table unchanged. */
  lemma TensorStepOut(w: Window, s: KSample, nb: nat)
    requires ValidWindow(w) && WellFormed(s) && nb < Bands(s)
    requires Bin(w, s.energies[nb]) == None
    ensures TensorUpTo(w, s, nb + 1) == TensorUpTo(w, s, nb)
  {
  }

  /** bcd_pl[ik, :, :] for the k-point sample s. */
  function PointTensor(w: Window, s: KSample): (r: Tensor)
    requires ValidWindow(w) && WellFormed(s)
    ensures Shaped(r, w.num)
  {
    TensorUpTo(w, s, Bands(s))
  }

  // ---------------------------------------------------------------------------
  // Binning
  // ---------------------------------------------------------------------------

  /** Multiplying by a positive bin width keeps the order. */
  lemma MulPositiveMonotone(x: real, y: real, d: real)
    requires x <= y && d > 0.0
    ensures x * d <= y * d
  {
  }

  /** Bounds on x carry over to bounds on the quotient x / d for a positive d. */
  lemma QuotientBounds(x: real, d: real, b: real)
    requires d > 0.0
    ensures (x / d) * d == x
    ensures b * d <= x ==> b <= x / d
    ensures x <= b * d ==> x / d <= b
  {
    assert (x / d) * d == x;
    if b * d <= x && x / d < b {
      MulPositiveMonotone(x / d, b, d);
      assert false;
    }
    if x <= b * d && b < x / d {
      MulPositiveMonotone(b, x / d, d);
      assert false;
    }
  }

  /** E_num bins of width delta_E span the window exactly. */
  lemma WidthSpansWindow(w: Window)
    requires ValidWindow(w)
    ensures DeltaE(w) * w.num as real == w.eMax - w.eMin
  {
  }

  /** An energy exactly k bin widths above E_min lands in bin k. */
  lemma BinAtGridEnergy(w: Window, k: nat)
    requires ValidWindow(w) && k < w.num
    ensures Bin(w, w.eMin + k as real * DeltaE(w)) == Some(k)
  {
    var d := DeltaE(w);
    var e := w.eMin + k as real * d;
    assert (e - w.eMin) / d == k as real by {
      assert e - w.eMin == k as real * d;
    }
    assert Trunc((e - w.eMin) / d) == k;
    assert e == w.eMin + k as real * DeltaE(w);
  }

  /**
   * With an increasing window, a band whose energy lies in [E_min, E_max) is
   * kept, and the bin it lands in is the one whose interval
   * [E_min + n delta_E, E_min + (n+1) delta_E) contains the energy.
   */
  lemma BinInWindow(w: Window, e: real)
    requires ValidWindow(w) && w.eMin < w.eMax && w.eMin <= e < w.eMax
    ensures Bin(w, e).Some?
    ensures w.eMin + Bin(w, e).value as real * DeltaE(w) <= e
    ensures e < w.eMin + (Bin(w, e).value + 1) as real * DeltaE(w)
  {
    var d := DeltaE(w);
    var x := e - w.eMin;
    var q := x / d;
    WidthSpansWindow(w);
    QuotientBounds(x, d, 0.0);
    QuotientBounds(x, d, w.num as real);
    assert 0.0 <= q;
    assert q < w.num as real by {
      if q >= w.num as real {
        MulPositiveMonotone(w.num as real, q, d);
        assert false;
      }
    }
    var n := Trunc(q);
    assert 0 <= n < w.num;
    assert Bin(w, e) == Some(n);
    MulPositiveMonotone(n as real, q, d);
    QuotientBounds(x, d, (n + 1) as real);
  }

  /**
   * With an increasing window, an energy at or above E_max falls past the
   * last bin (delta_E = (E_max - E_min) / E_num, so E_max itself is bin E_num)
   * and the band is dropped.
   */
  lemma BinDropsAtOrAboveMax(w: Window, e: real)
    requires ValidWindow(w) && w.eMin < w.eMax && e >= w.eMax
    ensures Bin(w, e) == None
  {
    var d := DeltaE(w);
    WidthSpansWindow(w);
    QuotientBounds(e - w.eMin, d, w.num as real);
    assert Trunc((e - w.eMin) / d) >= w.num;
  }

  /**
   * Truncation toward zero: an energy less than one bin width below E_min
   * still lands in bin 0; one at least a full bin width below is dropped.
   */
  lemma BinBelowMin(w: Window, e: real)
    requires ValidWindow(w) && w.eMin < w.eMax && e < w.eMin
    ensures w.eMin - e < DeltaE(w) ==> Bin(w, e) == Some(0)
    ensures w.eMin - e >= DeltaE(w) ==> Bin(w, e) == None
  {
    var d := DeltaE(w);
    var q := (e - w.eMin) / d;
    QuotientBounds(e - w.eMin, d, 0.0);
    QuotientBounds(e - w.eMin, d, -1.0);
    if w.eMin - e < d {
      assert q != 0.0 && q > -1.0 by {
        if q == 0.0 {
          assert false;
        }
        if q <= -1.0 {
          MulPositiveMonotone(q, -1.0, d);
          assert false;
        }
      }
      assert Trunc(q) == 0;
    } else {
      assert Trunc(q) <= -1;
    }
  }

  // ---------------------------------------------------------------------------
  // Which cells a band changes
  // ---------------------------------------------------------------------------

  /**
   * Reference definition of one table entry: the sum, over the bands
   * 0 .. nb-1 whose bin is e, of their column-j values.
   */
  function EntrySum(w: Window, s: KSample, e: nat, j: nat, nb: nat): real
    requires ValidWindow(w) && WellFormed(s) && nb <= Bands(s) && j < Cols
  {
    if nb == 0 then 0.0
    else if Bin(w, s.energies[nb - 1]) == Some(e) then EntrySum(w, s, e, j, nb - 1) + BandRow(s, nb - 1)[j]
    else EntrySum(w, s, e, j, nb - 1)
  }

  /**
   * Every entry of a k-point's table is exactly the sum of the rows of the
   * bands binned there: a band changes only its own bin row, a band outside
   * the window changes nothing, and the table starts from zero.
   */
  lemma {:induction false} TensorEntryIsBinSum(w: Window, s: KSample, nb: nat, e: nat, j: nat)
    requires ValidWindow(w) && WellFormed(s) && nb <= Bands(s) && e < w.num && j < Cols
    ensures TensorUpTo(w, s, nb)[e][j] == EntrySum(w, s, e, j, nb)
  {
    if nb > 0 {
      TensorEntryIsBinSum(w, s, nb - 1, e, j);
    }
  }

  // ---------------------------------------------------------------------------
  // Degeneracy and inter-band coupling
  // ---------------------------------------------------------------------------

  /** All off-diagonal velocity elements of the sample are zero. */
  ghost predicate NoCoupling(s: KSample)
    requires WellFormed(s)
  {
    forall a, i, m :: 0 <= a < 3 && 0 <= i < Bands(s) && 0 <= m < Bands(s) && i != m ==>
      s.vel[a][i][m] == Complex(0.0, 0.0)
  }

  /** A partner with no coupling to band n adds nothing to its curvature vector. */
  lemma UncoupledTermZero(s: KSample, n: nat, m: nat)
    requires WellFormed(s) && n < Bands(s) && m < Bands(s)
    requires s.vel[0][n][m] == Complex(0.0, 0.0)
    requires s.vel[1][n][m] == Complex(0.0, 0.0)
    requires s.vel[2][n][m] == Complex(0.0, 0.0)
    ensures Term(s, n, m) == [0.0, 0.0, 0.0]
  {
  }

  /** Without inter-band coupling, every partner's term is zero. */
  lemma NoCouplingTermZero(s: KSample, n: nat, k: nat)
    requires WellFormed(s) && NoCoupling(s) && n < Bands(s) && k < Bands(s)
    ensures Term(s, n, k) == [0.0, 0.0, 0.0]
  {
    if k != n {
      assert s.vel[0][n][k] == Complex(0.0, 0.0);
      assert s.vel[1][n][k] == Complex(0.0, 0.0);
      assert s.vel[2][n][k] == Complex(0.0, 0.0);
      UncoupledTermZero(s, n, k);
    }
  }

  /** A curvature sum whose every term vanishes is zero. */
  lemma {:induction false} ZeroTermsZeroCurvature(s: KSample, n: nat, m: nat)
    requires WellFormed(s) && n < Bands(s) && m <= Bands(s)
    requires forall k :: 0 <= k < Bands(s) ==> Term(s, n, k) == [0.0, 0.0, 0.0]
    ensures CurvatureUpTo(s, n, m) == [0.0, 0.0, 0.0]
  {
    if m > 0 {
      ZeroTermsZeroCurvature(s, n, m - 1);
    }
  }

  /** Without inter-band coupling, every band's curvature vector is zero. */
  lemma NoCouplingZeroCurvature(s: KSample, n: nat)
    requires WellFormed(s) && NoCoupling(s) && n < Bands(s)
    ensures Curvature(s, n) == [0.0, 0.0, 0.0]
  {
    forall k | 0 <= k < Bands(s)
      ensures Term(s, n, k) == [0.0, 0.0, 0.0]
    {
      NoCouplingTermZero(s, n, k);
    }
    ZeroTermsZeroCurvature(s, n, Bands(s));
  }

  /** When every band's curvature vector is zero, bands add only zeros to the table. */
  lemma {:induction false} ZeroCurvatureZeroTensor(w: Window, s: KSample, nb: nat)
    requires ValidWindow(w) && WellFormed(s) && nb <= Bands(s)
    requires forall n :: 0 <= n < Bands(s) ==> Curvature(s, n) == [0.0, 0.0, 0.0]
    ensures TensorUpTo(w, s, nb) == Zero(w.num)
  {
    if nb > 0 {
      var m := nb - 1;
      ZeroCurvatureZeroTensor(w, s, m);
      match Bin(w, s.energies[m])
      case None =>
        TensorStepOut(w, s, m);
      case Some(n) =>
        TensorStepIn(w, s, m, n);
        ZeroCurvatureZeroRow(s, m);
        TensorExt(TensorUpTo(w, s, nb), Zero(w.num), w.num);
    }
  }

  lemma ZeroCurvatureZeroRow(s: KSample, n: nat)
    requires WellFormed(s) && n < Bands(s) && Curvature(s, n) == [0.0, 0.0, 0.0]
    ensures forall j :: 0 <= j < Cols ==> RowFrom(s, n, Curvature(s, n))[j] == 0.0
  {
  }

  /**
   * Without inter-band coupling (every off-diagonal velocity element zero)
   * the k-point's table is the zero table.
   */
  lemma NoCouplingZeroTensor(w: Window, s: KSample)
    requires ValidWindow(w) && WellFormed(s) && NoCoupling(s)
    ensures PointTensor(w, s) == Zero(w.num)
  {
    forall n | 0 <= n < Bands(s)
      ensures Curvature(s, n) == [0.0, 0.0, 0.0]
    {
      NoCouplingZeroCurvature(s, n);
    }
    ZeroCurvatureZeroTensor(w, s, Bands(s));
  }

  /** Partners within E_bar of band n, the band itself included, leave bc unchanged. */
  lemma DegeneratePartnerAddsNothing(s: KSample, n: nat, m: nat)
    requires WellFormed(s) && n < Bands(s) && m < Bands(s)
    requires Gap(s, n, m) <= DegeneracyFloor
    ensures CurvatureUpTo(s, n, m + 1) == CurvatureUpTo(s, n, m)
  {
  }

  // ---------------------------------------------------------------------------
  // get_bcd_pl
  // ---------------------------------------------------------------------------

  /**
   * get_bcd_pl: a zero-initialised [K, E_num, 9] table filled k-point by
   * k-point and band by band; entry [ik, e, j] ends as PointTensor(ks[ik])[e][j].
   */
  method GetBcdPl(w: Window, ks: seq<KSample>) returns (t: array3<real>)
    requires ValidWindow(w) && AllWellFormed(ks)
    ensures fresh(t)
    ensures t.Length0 == |ks| && t.Length1 == w.num && t.Length2 == Cols
    ensures forall i, e, j :: 0 <= i < |ks| && 0 <= e < w.num && 0 <= j < Cols ==>
              t[i, e, j] == PointTensor(w, ks[i])[e][j]
  {
    t := new real[|ks|, w.num, Cols]((_, _, _) => 0.0);
    var ik := 0;
    while ik < |ks|
      invariant 0 <= ik <= |ks|
      invariant forall i, e, j :: 0 <= i < ik && 0 <= e < w.num && 0 <= j < Cols ==>
                  t[i, e, j] == PointTensor(w, ks[i])[e][j]
      invariant forall i, e, j :: ik <= i < |ks| && 0 <= e < w.num && 0 <= j < Cols ==>
                  t[i, e, j] == 0.0
    {
      FillPoint(w, t, ik, ks[ik]);
      ik := ik + 1;
    }
  }

  /**
   * The band loop of get_bcd_pl for k-point ik: its zero block of bcd_pl
   * ends as the k-point's table, and no other block changes.
   */
  method FillPoint(w: Window, t: array3<real>, ik: nat, s: KSample)
    requires ValidWindow(w) && WellFormed(s)
    requires ik < t.Length0 && t.Length1 == w.num && t.Length2 == Cols
    requires forall e, j :: 0 <= e < w.num && 0 <= j < Cols ==> t[ik, e, j] == 0.0
    modifies t
    ensures forall e, j :: 0 <= e < w.num && 0 <= j < Cols ==> t[ik, e, j] == PointTensor(w, s)[e][j]
    ensures forall i, e, j :: 0 <= i < t.Length0 && i != ik && 0 <= e < w.num && 0 <= j < Cols ==>
              t[i, e, j] == old(t[i, e, j])
  {
    var deltaE := DeltaE(w);
    var nband := 0;
    while nband < Bands(s)
      invariant 0 <= nband <= Bands(s)
      invariant forall i, e, j :: 0 <= i < t.Length0 && i != ik && 0 <= e < w.num && 0 <= j < Cols ==>
                  t[i, e, j] == old(t[i, e, j])
      invariant forall e, j :: 0 <= e < w.num && 0 <= j < Cols ==>
                  t[ik, e, j] == TensorUpTo(w, s, nband)[e][j]
    {
      var E := s.energies[nband];
      var n := Trunc((E - w.eMin) / deltaE);
      if n <= w.num - 1 && n >= 0 {
        var bc := BandCurvature(s, nband);
        AccumulateBand(t, ik, n, s, nband, bc);
        TensorStepIn(w, s, nband, n);
      } else {
        TensorStepOut(w, s, nband);
      }
      nband := nband + 1;
    }
  }

  /**
   * The inner loop of get_bcd_pl: bc_nband accumulated over every partner
   * band, skipping those within E_bar of band n.
   */
  method BandCurvature(s: KSample, n: nat) returns (bc: seq<real>)
    requires WellFormed(s) && n < Bands(s)
    ensures bc == Curvature(s, n)
  {
    bc := [0.0, 0.0, 0.0];
    var iband := 0;
    while iband < Bands(s)
      invariant 0 <= iband <= Bands(s)
      invariant bc == CurvatureUpTo(s, n, iband)
    {
      bc := AddPartner(s, n, iband, bc);
      iband := iband + 1;
    }
  }

  /**
   * One pass of the loop over partner bands: when E_in = |E_m - E_n| exceeds
   * E_bar, add the three components Re(v[1,n,m] v[2,m,n] 2i / E_in^2),
   * Re(v[2,n,m] v[0,m,n] 2i / E_in^2) and Re(v[0,n,m] v[1,m,n] 2i / E_in^2).
   */
  method AddPartner(s: KSample, n: nat, m: nat, bc: seq<real>) returns (r: seq<real>)
    requires WellFormed(s) && n < Bands(s) && m < Bands(s)
    requires bc == CurvatureUpTo(s, n, m)
    ensures r == CurvatureUpTo(s, n, m + 1)
  {
    var eIn := Abs(s.energies[m] - s.energies[n]);
    var c := eIn * eIn;
    assert eIn == Gap(s, n, m) && Abs(eIn) == eIn;
    r := bc;
    if Abs(eIn) > DegeneracyFloor {
      TermAboveFloor(s, n, m);
      assert c == Gap(s, n, m) * Gap(s, n, m);
      var v0 := s.vel[0];
      var v1 := s.vel[1];
      var v2 := s.vel[2];
      r := [ bc[0] + ReTimesTwoIOver(Mul(v1[n][m], v2[m][n]), c),
             bc[1] + ReTimesTwoIOver(Mul(v2[n][m], v0[m][n]), c),
             bc[2] + ReTimesTwoIOver(Mul(v0[n][m], v1[m][n]), c) ];
    }
    CurvatureStep(s, n, m, bc, r);
  }

  /** Above the degeneracy floor, partner m contributes the three cross products over E_in^2. */
  lemma TermAboveFloor(s: KSample, n: nat, m: nat)
    requires WellFormed(s) && n < Bands(s) && m < Bands(s)
    requires Gap(s, n, m) > DegeneracyFloor
    ensures Gap(s, n, m) * Gap(s, n, m) != 0.0
    ensures Term(s, n, m) ==
      [ ReTimesTwoIOver(Mul(s.vel[1][n][m], s.vel[2][m][n]), Gap(s, n, m) * Gap(s, n, m)),
        ReTimesTwoIOver(Mul(s.vel[2][n][m], s.vel[0][m][n]), Gap(s, n, m) * Gap(s, n, m)),
        ReTimesTwoIOver(Mul(s.vel[0][n][m], s.vel[1][m][n]), Gap(s, n, m) * Gap(s, n, m)) ]
  {
    var g := Gap(s, n, m);
    PositiveSquare(g);
    assert Abs(g) > DegeneracyFloor;
    var c := g * g;
    var t0 := ReTimesTwoIOver(Mul(s.vel[1][n][m], s.vel[2][m][n]), c);
    var t1 := ReTimesTwoIOver(Mul(s.vel[2][n][m], s.vel[0][m][n]), c);
    var t2 := ReTimesTwoIOver(Mul(s.vel[0][n][m], s.vel[1][m][n]), c);
    var t := Term(s, n, m);
    assert t[0] == t0 && t[1] == t1 && t[2] == t2;
    assert t == [t0, t1, t2];
    assert c == Gap(s, n, m) * Gap(s, n, m);
    assert t0 == ReTimesTwoIOver(Mul(s.vel[1][n][m], s.vel[2][m][n]), Gap(s, n, m) * Gap(s, n, m));
  }

  /** One partner's step: adding Term to bc_nband after m partners gives bc_nband after m+1. */
  lemma CurvatureStep(s: KSample, n: nat, m: nat, before: seq<real>, after: seq<real>)
    requires WellFormed(s) && n < Bands(s) && m < Bands(s)
    requires before == CurvatureUpTo(s, n, m)
    requires |after| == 3
    requires after[0] == before[0] + Term(s, n, m)[0]
    requires after[1] == before[1] + Term(s, n, m)[1]
    requires after[2] == before[2] + Term(s, n, m)[2]
    ensures after == CurvatureUpTo(s, n, m + 1)
  {
  }

  /**
   * The nine statements bcd_pl[ik, n, a*3+b] += Re(v[a,n,n] * bc[b]),
   * written as one pass over the columns of row n.
   */
  method AccumulateBand(t: array3<real>, ik: nat, n: nat, s: KSample, nband: nat, bc: seq<real>)
    requires WellFormed(s) && nband < Bands(s) && |bc| == 3
    requires ik < t.Length0 && n < t.Length1 && t.Length2 == Cols
    modifies t
    ensures forall i, e, j :: 0 <= i < t.Length0 && 0 <= e < t.Length1 && 0 <= j < Cols ==>
              t[i, e, j] == if i == ik && e == n then old(t[i, e, j]) + RowFrom(s, nband, bc)[j]
                            else old(t[i, e, j])
  {
    var row := RowFrom(s, nband, bc);
    for col := 0 to Cols
      invariant forall i, e, j :: 0 <= i < t.Length0 && 0 <= e < t.Length1 && 0 <= j < Cols ==>
                  t[i, e, j] == if i == ik && e == n && j < col then old(t[i, e, j]) + row[j]
                                else old(t[i, e, j])
    {
      t[ik, n, col] := t[ik, n, col] + row[col];
    }
  }
}
