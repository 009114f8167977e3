/**
 * The Berry_Curvature_Dipole object: construction checks, set_parameters
 * and calculate_berry_curvature_dipole, which runs the coarse scan, refines
 * every hot k-point on a finer grid around it and assembles bcd_0.
 *
 * The k-point generator, the split of each batch over the ranks and the
 * band solver are one input, a sampler: given the grid it is asked for, it
 * returns the batches with every rank's samples.
 */
module Dipole {
  import opened Numerics
  import opened Kernel
  import opened Scan

  /** A Monkhorst-Pack grid size (n1, n2, n3). */
  datatype Grid3 = Grid3(n1: int, n2: int, n3: int)

  /** n1 * n2 * n3; zero exactly when one of the sizes is zero. */
  function Volume(g: Grid3): (v: int)
    ensures v != 0 <==> g.n1 != 0 && g.n2 != 0 && g.n3 != 0
  {
    ZeroProduct(g.n1, g.n2, g.n3);
    g.n1 * g.n2 * g.n3
  }

  lemma ZeroProduct(a: int, b: int, c: int)
    ensures a * b * c != 0 <==> a != 0 && b != 0 && c != 0
  {
    NonzeroProduct(a, b);
    NonzeroProduct(a * b, c);
  }

  lemma NonzeroProduct(a: int, b: int)
    ensures a * b != 0 <==> a != 0 && b != 0
  {
  }

  /** What the k-point generator is asked for: a start point, three spanning vectors and a grid. */
  datatype GridRequest = GridRequest(start: Vec3, v1: Vec3, v2: Vec3, v3: Vec3, grid: Grid3)

  /** The generator together with the rank split and the band solver. */
  type Sampler = GridRequest -> seq<Batch>

  ghost predicate SamplerWellFormed(sampler: Sampler)
  {
    forall q :: BatchesWellFormed(sampler(q))
  }

  /**
   * The grid around a hot point h: the coarse cell spanned by v_i / n_i,
   * shifted back by half its diagonal, sampled with the adaptive grid.
   */
  function FineRequest(h: Vec3, v1: Vec3, v2: Vec3, v3: Vec3, coarse: Grid3, fine: Grid3): (q: GridRequest)
    requires Volume(coarse) != 0
    ensures q.grid == fine
    ensures VAdd(q.start, VDiv(VAdd(VAdd(q.v1, q.v2), q.v3), 2.0)) == h
    ensures q.v1 == VDiv(v1, coarse.n1 as real) && q.v2 == VDiv(v2, coarse.n2 as real)
    ensures q.v3 == VDiv(v3, coarse.n3 as real)
  {
    var w1 := VDiv(v1, coarse.n1 as real);
    var w2 := VDiv(v2, coarse.n2 as real);
    var w3 := VDiv(v3, coarse.n3 as real);
    var delta := VAdd(VAdd(w1, w2), w3);
    GridRequest(VSub(h, VDiv(delta, 2.0)), w1, w2, w3, fine)
  }

  // ---------------------------------------------------------------------------
  // Construction and parameters
  // ---------------------------------------------------------------------------

  datatype ConfigError = SpinUnsupported | ModeUnsupported | ZeroEnergyStep

  datatype CalcError = ZeroIntegrateGrid | BadEnergyWindow | ZeroAdaptiveGrid

  /** The checks of __init__, in the order the constructor makes them. */
  function CheckConstruction(nspin: int, mode: string): (r: Option<ConfigError>)
    ensures r == None <==> nspin != 2 && mode == "Grid"
    ensures r == Some(SpinUnsupported) <==> nspin == 2
    ensures r == Some(ModeUnsupported) <==> nspin != 2 && mode != "Grid"
  {
    if nspin == 2 then Some(SpinUnsupported)
    else if mode != "Grid" then Some(ModeUnsupported)
    else None
  }

  /**
   * The number of energy points, int((end - start) / domega) + 1: at least
   * one exactly when the quotient is above -1 (truncation toward zero), and
   * for a non-negative quotient r - 1 whole steps fit in the window but r do not.
   */
  function OmegaNum(start: real, end: real, domega: real): (r: int)
    requires domega != 0.0
    ensures 0.0 <= (end - start) / domega ==>
      r >= 1 && (r - 1) as real <= (end - start) / domega < r as real
    ensures r >= 1 <==> (end - start) / domega > -1.0
  {
    Trunc((end - start) / domega) + 1
  }

  /** With a positive step and start <= end, the points start + i * domega for i < r cover the window. */
  lemma OmegaNumCoversWindow(start: real, end: real, domega: real)
    requires domega > 0.0 && start <= end
    ensures OmegaNum(start, end, domega) >= 1
    ensures var r := OmegaNum(start, end, domega);
      start + (r - 1) as real * domega <= end < start + r as real * domega
  {
    var r := OmegaNum(start, end, domega);
    QuotientBounds(end - start, domega, r as real);
    MulPositiveMonotone((r - 1) as real, (end - start) / domega, domega);
  }

  class BerryCurvatureDipole {
    const kStart: Vec3 := Vec3(0.0, 0.0, 0.0)
    const kVect1: Vec3 := Vec3(1.0, 0.0, 0.0)
    const kVect2: Vec3 := Vec3(0.0, 1.0, 0.0)
    const kVect3: Vec3 := Vec3(0.0, 0.0, 1.0)

    var startOmega: real
    var endOmega: real
    var domega: real
    var omegaNum: int
    var integrateGrid: Grid3
    var adaptiveGrid: Grid3
    var threshold: real
    var bcd0: Tensor

    /** An object whose parameters are not set yet. */
    constructor ()
      ensures startOmega == 0.0 && endOmega == 0.0 && domega == 0.0 && omegaNum == 0
      ensures integrateGrid == Grid3(0, 0, 0) && adaptiveGrid == Grid3(0, 0, 0)
      ensures threshold == 0.0 && bcd0 == []
    {
      startOmega := 0.0;
      endOmega := 0.0;
      domega := 0.0;
      omegaNum := 0;
      integrateGrid := Grid3(0, 0, 0);
      adaptiveGrid := Grid3(0, 0, 0);
      threshold := 0.0;
      bcd0 := [];
    }

    /** The energy window the kernel bins into. */
    function EnergyWindow(): (w: Window)
      reads this
      ensures w.eMin == startOmega && w.eMax == endOmega && w.num == omegaNum
    {
      Window(startOmega, endOmega, omegaNum)
    }

    /** The grid of the coarse scan: the whole cell from kStart. */
    function CoarseRequest(): (q: GridRequest)
      reads this
      ensures q.start == kStart && q.grid == integrateGrid
      ensures q.v1 == kVect1 && q.v2 == kVect2 && q.v3 == kVect3
    {
      GridRequest(kStart, kVect1, kVect2, kVect3, integrateGrid)
    }

    /**
     * set_parameters: the window bounds and the step are stored first; a zero
     * step then stops it, leaving the remaining fields as they were.
     */
    method SetParameters(omegaStart: real, omegaEnd: real, step: real,
                         integrate: Grid3, adaptive: Grid3, bar: real) returns (ok: bool)
      modifies this
      ensures ok <==> step != 0.0
      ensures startOmega == omegaStart && endOmega == omegaEnd && domega == step
      ensures ok ==> omegaNum == OmegaNum(omegaStart, omegaEnd, step)
      ensures ok ==> integrateGrid == integrate && adaptiveGrid == adaptive && threshold == bar
      ensures !ok ==> omegaNum == old(omegaNum) && integrateGrid == old(integrateGrid)
      ensures !ok ==> adaptiveGrid == old(adaptiveGrid) && threshold == old(threshold)
      ensures bcd0 == old(bcd0)
    {
      startOmega := omegaStart;
      endOmega := omegaEnd;
      domega := step;
      if step == 0.0 {
        return false;
      }
      omegaNum := OmegaNum(startOmega, endOmega, step);
      integrateGrid := integrate;
      adaptiveGrid := adaptive;
      threshold := bar;
      ok := true;
    }

    /**
     * calculate_berry_curvature_dipole: the coarse baseline, plus every hot
     * point's fine-grid sum divided by the adaptive grid size, all scaled by
     * constant1 / (n1 n2 n3).
     */
    method Calculate(constant1: real, sampler: Sampler) returns (r: Result<Tensor, CalcError>)
      requires SamplerWellFormed(sampler)
      modifies this`bcd0
      ensures Volume(integrateGrid) == 0 ==> r == Failure(ZeroIntegrateGrid) && bcd0 == old(bcd0)
      ensures Volume(integrateGrid) != 0 && !ValidWindow(EnergyWindow()) ==>
        r == Failure(BadEnergyWindow) && bcd0 == old(bcd0)
      ensures Volume(integrateGrid) != 0 && ValidWindow(EnergyWindow()) ==>
        var w := EnergyWindow();
        var coarse := Flatten(sampler(CoarseRequest()));
        var hot := HotCoords(w, coarse, threshold);
        if |hot| > 0 && Volume(adaptiveGrid) == 0 then
          r == Failure(ZeroAdaptiveGrid) && bcd0 == ColdSum(w, coarse, threshold)
        else
          && bcd0 == Add(ColdSum(w, coarse, threshold),
                         RefinedSum(w, sampler, hot, kVect1, kVect2, kVect3, integrateGrid, adaptiveGrid))
          && r == Success(Scale(Scale(bcd0, constant1), 1.0 / Volume(integrateGrid) as real))
    {
      var ig := integrateGrid;
      var ag := adaptiveGrid;
      if Volume(ig) == 0 {
        return Failure(ZeroIntegrateGrid);
      }
      var w := EnergyWindow();
      if !ValidWindow(w) {
        return Failure(BadEnergyWindow);
      }
      r := ScanAndRefine(constant1, sampler, w, ig, ag);
    }

    /** The body of calculate_berry_curvature_dipole once the grid and the window are known to be usable. */
    method ScanAndRefine(constant1: real, sampler: Sampler, w: Window, ig: Grid3, ag: Grid3)
      returns (r: Result<Tensor, CalcError>)
      requires SamplerWellFormed(sampler) && ValidWindow(w) && Volume(ig) != 0
      requires w == EnergyWindow() && ig == integrateGrid && ag == adaptiveGrid
      modifies this`bcd0
      ensures
        var coarse := Flatten(sampler(CoarseRequest()));
        var hot := HotCoords(w, coarse, threshold);
        if |hot| > 0 && Volume(ag) == 0 then
          r == Failure(ZeroAdaptiveGrid) && bcd0 == ColdSum(w, coarse, threshold)
        else
          && bcd0 == Add(ColdSum(w, coarse, threshold), RefinedSum(w, sampler, hot, kVect1, kVect2, kVect3, ig, ag))
          && r == Success(Scale(Scale(bcd0, constant1), 1.0 / Volume(ig) as real))
    {
      var baseline, hot := AreaJudge(w, sampler(CoarseRequest()), threshold);
      bcd0 := baseline;
      var ok := Refine(w, sampler, hot, ig, ag);
      if !ok {
        return Failure(ZeroAdaptiveGrid);
      }
      r := Success(Scale(Scale(bcd0, constant1), 1.0 / Volume(ig) as real));
    }

    /**
     * The loop over the hot points of calculate_berry_curvature_dipole: each
     * one's fine-grid sum, divided by m1 m2 m3, is added to bcd_0. It stops
     * at the first hot point when the adaptive grid has a zero size.
     */
    method Refine(w: Window, sampler: Sampler, hot: seq<Vec3>, ig: Grid3, ag: Grid3) returns (ok: bool)
      requires ValidWindow(w) && SamplerWellFormed(sampler) && Volume(ig) != 0
      requires Shaped(bcd0, w.num)
      modifies this`bcd0
      ensures ok <==> |hot| == 0 || Volume(ag) != 0
      ensures !ok ==> bcd0 == old(bcd0)
      ensures ok ==> bcd0 == Add(old(bcd0), RefinedSum(w, sampler, hot, kVect1, kVect2, kVect3, ig, ag))
    {
      ghost var baseline := bcd0;
      RefinedEmpty(w, sampler, hot[..0], kVect1, kVect2, kVect3, ig, ag);
      AddZeroRight(baseline, w.num);
      var i := 0;
      while i < |hot|
        invariant 0 <= i <= |hot|
        invariant i > 0 ==> Volume(ag) != 0
        invariant bcd0 == Add(baseline, RefinedSum(w, sampler, hot[..i], kVect1, kVect2, kVect3, ig, ag))
      {
        var request := FineRequest(hot[i], kVect1, kVect2, kVect3, ig, ag);
        var bcdTotal := FineSum(w, sampler(request));
        if Volume(ag) == 0 {
          return false;
        }
        ghost var before := RefinedSum(w, sampler, hot[..i], kVect1, kVect2, kVect3, ig, ag);
        ghost var step := Refinement(w, sampler, hot[i], kVect1, kVect2, kVect3, ig, ag);
        assert Div(bcdTotal, Volume(ag) as real) == step;
        RefinedStep(w, sampler, hot, i, kVect1, kVect2, kVect3, ig, ag);
        AddAssoc(baseline, before, step, w.num);
        bcd0 := Add(bcd0, Div(bcdTotal, Volume(ag) as real));
        i := i + 1;
      }
      assert hot[..|hot|] == hot;
      ok := true;
    }
  }

  /**
   * Create: __init__ followed by set_parameters, or the error that stops
   * construction.
   */
  method Create(nspin: int, mode: string, omegaStart: real, omegaEnd: real, step: real,
                integrate: Grid3, adaptive: Grid3, bar: real)
    returns (r: Result<BerryCurvatureDipole, ConfigError>)
    ensures r.Failure? <==> CheckConstruction(nspin, mode).Some? || step == 0.0
    ensures r.Failure? && CheckConstruction(nspin, mode).Some? ==> r.error == CheckConstruction(nspin, mode).value
    ensures r.Failure? && CheckConstruction(nspin, mode).None? ==> r.error == ZeroEnergyStep
    ensures r.Success? ==> fresh(r.value)
    ensures r.Success? ==>
      && r.value.startOmega == omegaStart && r.value.endOmega == omegaEnd && r.value.domega == step
      && r.value.omegaNum == OmegaNum(omegaStart, omegaEnd, step)
      && r.value.integrateGrid == integrate && r.value.adaptiveGrid == adaptive
      && r.value.threshold == bar
  {
    var check := CheckConstruction(nspin, mode);
    if check.Some? {
      return Failure(check.value);
    }
    var d := new BerryCurvatureDipole();
    var ok := d.SetParameters(omegaStart, omegaEnd, step, integrate, adaptive, bar);
    if !ok {
      return Failure(ZeroEnergyStep);
    }
    r := Success(d);
  }

  // ---------------------------------------------------------------------------
  // The refinement sum
  // ---------------------------------------------------------------------------

  /** One hot point's refined contribution: its fine-grid sum over m1 m2 m3. */
  function Refinement(w: Window, sampler: Sampler, h: Vec3, v1: Vec3, v2: Vec3, v3: Vec3,
                      coarse: Grid3, fine: Grid3): (r: Tensor)
    requires ValidWindow(w) && SamplerWellFormed(sampler)
    requires Volume(coarse) != 0 && Volume(fine) != 0
    ensures Shaped(r, w.num)
  {
    var q := FineRequest(h, v1, v2, v3, coarse, fine);
    assert BatchesWellFormed(sampler(q));
    Div(AllSum(w, Flatten(sampler(q))), Volume(fine) as real)
  }

  /** The sum of the hot points' refined contributions, each counted once, in order. */
  function RefinedSum(w: Window, sampler: Sampler, hot: seq<Vec3>, v1: Vec3, v2: Vec3, v3: Vec3,
                      coarse: Grid3, fine: Grid3): (r: Tensor)
    requires ValidWindow(w) && SamplerWellFormed(sampler)
    requires Volume(coarse) != 0 && (|hot| == 0 || Volume(fine) != 0)
    ensures Shaped(r, w.num)
  {
    if |hot| == 0 then Zero(w.num)
    else
      Add(RefinedSum(w, sampler, hot[..|hot| - 1], v1, v2, v3, coarse, fine),
          Refinement(w, sampler, hot[|hot| - 1], v1, v2, v3, coarse, fine))
  }

  lemma RefinedEmpty(w: Window, sampler: Sampler, hot: seq<Vec3>, v1: Vec3, v2: Vec3, v3: Vec3,
                     coarse: Grid3, fine: Grid3)
    requires ValidWindow(w) && SamplerWellFormed(sampler) && Volume(coarse) != 0 && |hot| == 0
    ensures RefinedSum(w, sampler, hot, v1, v2, v3, coarse, fine) == Zero(w.num)
  {
  }

  /** Refining one more hot point adds its contribution once. */
  lemma RefinedStep(w: Window, sampler: Sampler, hot: seq<Vec3>, i: nat, v1: Vec3, v2: Vec3, v3: Vec3,
                    coarse: Grid3, fine: Grid3)
    requires ValidWindow(w) && SamplerWellFormed(sampler)
    requires Volume(coarse) != 0 && Volume(fine) != 0 && i < |hot|
    ensures RefinedSum(w, sampler, hot[..i + 1], v1, v2, v3, coarse, fine)
            == Add(RefinedSum(w, sampler, hot[..i], v1, v2, v3, coarse, fine),
                   Refinement(w, sampler, hot[i], v1, v2, v3, coarse, fine))
  {
    assert hot[..i + 1][..i] == hot[..i];
  }

  /**
   * The refinement is independent of how the hot list is split: refining a
   * concatenation adds the two parts' refinements.
   */
  lemma {:induction false} RefinedSumConcat(w: Window, sampler: Sampler, a: seq<Vec3>, b: seq<Vec3>,
                                            v1: Vec3, v2: Vec3, v3: Vec3, coarse: Grid3, fine: Grid3)
    requires ValidWindow(w) && SamplerWellFormed(sampler)
    requires Volume(coarse) != 0 && Volume(fine) != 0
    ensures RefinedSum(w, sampler, a + b, v1, v2, v3, coarse, fine)
            == Add(RefinedSum(w, sampler, a, v1, v2, v3, coarse, fine),
                   RefinedSum(w, sampler, b, v1, v2, v3, coarse, fine))
  {
    if |b| == 0 {
      assert a + b == a;
      AddZeroRight(RefinedSum(w, sampler, a, v1, v2, v3, coarse, fine), w.num);
    } else {
      var b' := b[..|b| - 1];
      assert (a + b)[..|a + b| - 1] == a + b';
      assert (a + b)[|a + b| - 1] == b[|b| - 1];
      RefinedSumConcat(w, sampler, a, b', v1, v2, v3, coarse, fine);
      AddAssoc(RefinedSum(w, sampler, a, v1, v2, v3, coarse, fine),
               RefinedSum(w, sampler, b', v1, v2, v3, coarse, fine),
               Refinement(w, sampler, b[|b| - 1], v1, v2, v3, coarse, fine), w.num);
    }
  }
}
