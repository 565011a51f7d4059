/**
 * The tethers hanging from the ring to the surface: how many are drawn (a
 * cap that depends on the detail level), the flat position buffer holding a
 * surface point and a ring point per tether, and whether anything is drawn.
 */
module Tethers {
  import opened Wrappers
  import opened RingLod
  import opened SimulationMachine

  /**
   * The number of tethers drawn: the tether count, capped by `maxVisible`
   * when that prop is truthy; an absent or zero cap means no cap.
   */
  function DisplayCount(tetherCount: int, maxVisible: Option<int>): (n: int)
    ensures n <= tetherCount
    ensures maxVisible.Some? && maxVisible.value != 0 ==> n <= maxVisible.value
    ensures n == tetherCount || (maxVisible.Some? && n == maxVisible.value)
    ensures (maxVisible.None? || maxVisible.value == 0) ==> n == tetherCount
  {
    if maxVisible.Some? && maxVisible.value != 0 then
      if tetherCount <= maxVisible.value then tetherCount else maxVisible.value
    else tetherCount
  }

  /** More detail never draws fewer tethers. */
  lemma TetherCapGrowsWithDetail(tetherCount: int, a: LodLevel, b: LodLevel)
    requires a != Far && b != Far
    requires LevelIndex(a) < LevelIndex(b)
    ensures DisplayCount(tetherCount, VariantFor(a).maxVisibleTethers)
         >= DisplayCount(tetherCount, VariantFor(b).maxVisibleTethers)
  {
  }

  /**
   * The angle of tether `i` of `n`, as a fraction of a full turn (the source's
   * angle `i / n * 2 pi` is this times `2 pi`). It lies in [0, 1) for the
   * tethers drawn.
   */
  function Turn(i: int, n: int): (t: real)
    requires n > 0
    ensures 0 <= i < n ==> 0.0 <= t < 1.0
  {
    i as real / n as real
  }

  /** Later tethers sit at strictly larger angles. */
  lemma TurnStrictlyIncreasing(i: int, j: int, n: int)
    requires n > 0 && i < j
    ensures Turn(i, n) < Turn(j, n)
  {
    assert Turn(j, n) - Turn(i, n) == (j - i) as real / n as real;
  }

  /**
   * The six numbers pushed for the tether at angle `t` (in turns): its
   * surface point at radius `earthR` and its ring point at radius `ringR`,
   * both in the plane y = 0 and both along the direction `(cos t, 0, sin t)`
   * given by the host's trigonometry.
   */
  function TetherPoints(t: real, earthR: real, ringR: real, cos: real -> real, sin: real -> real): (p: seq<real>)
    ensures |p| == 6
  {
    [cos(t) * earthR, 0.0, sin(t) * earthR, cos(t) * ringR, 0.0, sin(t) * ringR]
  }

  /**
   * When the host's `cos` and `sin` agree with the unit circle at `t`, the
   * surface point lies at the Earth's radius and the ring point at the
   * ring's, at the same angle.
   */
  lemma TetherPointsOnCircles(t: real, earthR: real, ringR: real, cos: real -> real, sin: real -> real)
    requires Sq(cos(t)) + Sq(sin(t)) == 1.0
    ensures
      var p := TetherPoints(t, earthR, ringR, cos, sin);
      && p[1] == 0.0 && p[4] == 0.0
      && Sq(p[0]) + Sq(p[2]) == Sq(earthR)
      && Sq(p[3]) + Sq(p[5]) == Sq(ringR)
      && p[0] * ringR == p[3] * earthR
      && p[2] * ringR == p[5] * earthR
  {
    var c, s := cos(t), sin(t);
    SqOfProduct(c, earthR);
    SqOfProduct(s, earthR);
    SqOfProduct(c, ringR);
    SqOfProduct(s, ringR);
    assert Sq(c) * Sq(earthR) + Sq(s) * Sq(earthR) == (Sq(c) + Sq(s)) * Sq(earthR);
    assert Sq(c) * Sq(ringR) + Sq(s) * Sq(ringR) == (Sq(c) + Sq(s)) * Sq(ringR);
  }

  lemma SqOfProduct(a: real, b: real)
    ensures Sq(a * b) == Sq(a) * Sq(b)
  {
    assert (a * b) * (a * b) == (a * a) * (b * b);
  }

  /** The Earth's radius in scene units. */
  const EarthRadiusScene: real := EarthRadiusKm * KmToScene

  /** The buffer after the first `count` of `n` tethers have been pushed. */
  function TetherBuffer(count: nat, n: int, earthR: real, ringR: real, cos: real -> real, sin: real -> real): (b: seq<real>)
    requires count <= n
    ensures |b| == 6 * count
  {
    if count == 0 then []
    else TetherBuffer(count - 1, n, earthR, ringR, cos, sin) + TetherPoints(Turn(count - 1, n), earthR, ringR, cos, sin)
  }

  /**
   * The buffer holds six numbers per tether, and tether `i`'s six are its
   * surface point and ring point at angle `Turn(i, n)`.
   */
  lemma {:induction false} TetherBufferLayout(count: nat, n: int, earthR: real, ringR: real, cos: real -> real, sin: real -> real)
    requires count <= n
    ensures |TetherBuffer(count, n, earthR, ringR, cos, sin)| == 6 * count
    ensures forall i :: 0 <= i < count ==>
      TetherBuffer(count, n, earthR, ringR, cos, sin)[6 * i .. 6 * i + 6]
        == TetherPoints(Turn(i, n), earthR, ringR, cos, sin)
  {
    if count > 0 {
      var prev := TetherBuffer(count - 1, n, earthR, ringR, cos, sin);
      var last := TetherPoints(Turn(count - 1, n), earthR, ringR, cos, sin);
      TetherBufferLayout(count - 1, n, earthR, ringR, cos, sin);
      forall i | 0 <= i < count
        ensures (prev + last)[6 * i .. 6 * i + 6] == TetherPoints(Turn(i, n), earthR, ringR, cos, sin)
      {
        if i < count - 1 {
          assert (prev + last)[6 * i .. 6 * i + 6] == prev[6 * i .. 6 * i + 6];
        } else {
          assert (prev + last)[6 * i .. 6 * i + 6] == last;
        }
      }
    }
  }

  /**
   * The geometry loop: for each of the `displayCount` tethers, in order,
   * push its surface point and its ring point. A non-positive count pushes
   * nothing.
   */
  method BuildPositions(displayCount: int, altitude: real, cos: real -> real, sin: real -> real)
    returns (positions: seq<real>)
    ensures displayCount <= 0 ==> positions == []
    ensures displayCount > 0 ==>
      positions == TetherBuffer(displayCount, displayCount, EarthRadiusScene, RingRadius(altitude), cos, sin)
  {
    var earthR := EarthRadiusKm * KmToScene;
    var ringR := RingRadius(altitude);
    positions := [];
    var i := 0;
    while i < displayCount
      invariant 0 <= i
      invariant displayCount > 0 ==> i <= displayCount
      invariant displayCount > 0 ==> positions == TetherBuffer(i, displayCount, earthR, ringR, cos, sin)
      invariant displayCount <= 0 ==> positions == []
    {
      var angle := Turn(i, displayCount);
      var pushed := [cos(angle) * earthR, 0.0, sin(angle) * earthR, cos(angle) * ringR, 0.0, sin(angle) * ringR];
      ghost var expected := TetherPoints(angle, earthR, ringR, cos, sin);
      assert expected[0] == pushed[0] && expected[2] == pushed[2];
      assert expected[3] == pushed[3] && expected[5] == pushed[5];
      assert pushed == expected;
      positions := positions + pushed;
      i := i + 1;
    }
  }

  /** Tethers are drawn only when `showTethers` is truthy and the count is non-zero. */
  predicate ShouldRender(parameters: map<string, ParamValue>, displayCount: int): (b: bool)
    ensures b <==> "showTethers" in parameters && parameters["showTethers"] !in FalsyValues && displayCount != 0
  {
    ParamTruthy(parameters, "showTethers") && displayCount != 0
  }

  /** `showTethers` is not a default parameter, so by default no tethers are drawn. */
  lemma DefaultsRenderNothing(displayCount: int)
    ensures !ShouldRender(DefaultParameters, displayCount)
  {
    assert "showTethers" !in DefaultParameters;
  }

  /** After the panel turns `showTethers` on, a non-zero count is drawn. */
  lemma ShowTethersEnablesRendering(m: Sim, displayCount: int)
    requires displayCount != 0
    ensures ShouldRender(StepMachine(m, SetParameter("showTethers", Flag(true))).ctx.parameters, displayCount)
  {
  }
}
