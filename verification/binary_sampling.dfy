/** The stochastic binary-sampling activation
    (`BinarySamplingActivationFunction`).

    Activation buffers are unit-major: bunch element `b` of unit `i` lives
    at `Flat(max_bunch_size, i, b)`.  The sampler is meant to replace every
    element of the current bunch by a 0/1 sample drawn with the logistic of
    that element as probability (`applyActivation`), or by a uniform draw
    (`randomize`).  The source indexes the element inside its bunch loop by
    the unit counter instead of the bunch counter, so it writes only the
    slot `i*max_bunch_size + i` of unit `i`, `cur_bunch_size` times over.
    Both the code as written and the evidently intended sweep are modelled
    here.

    The Mersenne-twister generator is an oracle: the generator state is the
    number of values drawn so far, `uniform(n)` is the n-th draw and
    `sample(n, p)` is the 0/1 sample taken with the n-th draw at
    probability `p`; `sigmoid` is the logistic kernel. */
module BinarySampling {
  import opened Strides
  import opened Activation

  datatype BinarySampler = BinarySampler(draws: nat)

  /** `clone`: the clone owns a copy of the generator, in the same state. */
  function Clone(s: BinarySampler): (r: BinarySampler)
    ensures r.draws == s.draws
  {
    BinarySampler(s.draws)
  }

  // ---------------------------------------------------------------------
  // the intended sweep

  /** Slot `k` holds an element of the current bunch of unit `i`. */
  ghost predicate InUnit(k: nat, conf: Configuration, i: nat)
  {
    exists b :: 0 <= b < conf.curBunchSize && k == Flat(conf.maxBunchSize, i, b)
  }

  /** Slot `k` holds an element of the current bunch of one of the first
      `n` units. */
  ghost predicate InBunch(k: nat, conf: Configuration, n: nat)
  {
    exists i :: 0 <= i < n && InUnit(k, conf, i)
  }

  /** `u` is `units` with element (i, b) of every one of the first `n` units
      replaced by `value(draw0 + Flat(cur, i, b), old value)` and every
      other slot untouched. */
  ghost predicate SweptBunch(units: seq<real>, u: seq<real>, conf: Configuration, n: nat, draw0: nat,
                             value: (nat, real) -> real)
  {
    && |u| == |units|
    && (forall i, b :: 0 <= i < n && 0 <= b < conf.curBunchSize ==>
          Flat(conf.maxBunchSize, i, b) < |u| &&
          u[Flat(conf.maxBunchSize, i, b)]
          == value(draw0 + Flat(conf.curBunchSize, i, b), units[Flat(conf.maxBunchSize, i, b)]))
    && (forall k :: 0 <= k < |u| && !InBunch(k, conf, n) ==> u[k] == units[k])
  }

  /** The elements of two different units never share a slot. */
  lemma UnitsDisjoint(conf: Configuration, i: nat, i': nat, b: nat)
    requires conf.curBunchSize <= conf.maxBunchSize
    requires i != i' && b < conf.curBunchSize
    ensures !InUnit(Flat(conf.maxBunchSize, i', b), conf, i)
  {
    if InUnit(Flat(conf.maxBunchSize, i', b), conf, i) {
      var b' :| 0 <= b' < conf.curBunchSize && Flat(conf.maxBunchSize, i', b) == Flat(conf.maxBunchSize, i, b');
      FlatInjective(conf.maxBunchSize, i', b, i, b');
    }
  }

  /** `u` is `u0` with element `b` of unit `i` replaced by `value` of draw
      `draw0 + b` and its old contents, for every `b` of the current bunch,
      and every other slot untouched. */
  ghost predicate UnitSwept(u0: seq<real>, u: seq<real>, conf: Configuration, i: nat, draw0: nat,
                            value: (nat, real) -> real)
  {
    && |u| == |u0|
    && (forall b :: 0 <= b < conf.curBunchSize ==>
          Flat(conf.maxBunchSize, i, b) < |u| &&
          u[Flat(conf.maxBunchSize, i, b)] == value(draw0 + b, u0[Flat(conf.maxBunchSize, i, b)]))
    && (forall k :: 0 <= k < |u| && !InUnit(k, conf, i) ==> u[k] == u0[k])
  }

  /** The bunch loop of one unit `i`. */
  method SweepUnit(u0: seq<real>, i: nat, conf: Configuration, draw0: nat, value: (nat, real) -> real)
    returns (u: seq<real>, draws: nat)
    requires conf.curBunchSize <= conf.maxBunchSize
    requires (i + 1) * conf.maxBunchSize <= |u0|
    ensures draws == draw0 + conf.curBunchSize
    ensures UnitSwept(u0, u, conf, i, draw0, value)
  {
    var mx, cur := conf.maxBunchSize, conf.curBunchSize;
    FlatBoundAll(mx, i + 1);
    u, draws := u0, draw0;
    var b := 0;
    while b < cur
      invariant 0 <= b <= cur && |u| == |u0|
      invariant draws == draw0 + b
      invariant forall b' :: 0 <= b' < b ==> u[Flat(mx, i, b')] == value(draw0 + b', u0[Flat(mx, i, b')])
      invariant forall b' :: b <= b' < cur ==> u[Flat(mx, i, b')] == u0[Flat(mx, i, b')]
      invariant forall k :: 0 <= k < |u| && !InUnit(k, conf, i) ==> u[k] == u0[k]
    {
      var k := Flat(mx, i, b);
      forall b' | 0 <= b' < cur && b' != b ensures Flat(mx, i, b') != k
      {
        if Flat(mx, i, b') == k { FlatInjective(mx, i, b', i, b); }
      }
      u := u[k := value(draws, u[k])];
      draws := draws + 1;
      b := b + 1;
    }
  }

  /** Sweeping unit `i` after the units before it extends the swept
      prefix by one unit. */
  lemma BunchStep(units: seq<real>, u0: seq<real>, u: seq<real>, conf: Configuration, i: nat, draw0: nat,
                  value: (nat, real) -> real)
    requires conf.curBunchSize <= conf.maxBunchSize
    requires SweptBunch(units, u0, conf, i, draw0, value)
    requires UnitSwept(u0, u, conf, i, draw0 + Flat(conf.curBunchSize, i, 0), value)
    ensures SweptBunch(units, u, conf, i + 1, draw0, value)
  {
    var mx, cur := conf.maxBunchSize, conf.curBunchSize;
    forall i', b | 0 <= i' < i + 1 && 0 <= b < cur
      ensures Flat(mx, i', b) < |u|
      ensures u[Flat(mx, i', b)] == value(draw0 + Flat(cur, i', b), units[Flat(mx, i', b)])
    {
      if i' < i {
        UnitsDisjoint(conf, i, i', b);
      } else {
        forall i'' | 0 <= i'' < i ensures !InUnit(Flat(mx, i, b), conf, i'') { UnitsDisjoint(conf, i'', i, b); }
        assert !InBunch(Flat(mx, i, b), conf, i);
      }
    }
    forall k | 0 <= k < |u| && !InBunch(k, conf, i + 1)
      ensures u[k] == units[k]
    {
      assert !InUnit(k, conf, i);
      assert !InBunch(k, conf, i);
    }
  }

  /** Replaces every element (i, b) of the current bunch of the first
      `unitsSize` units by `value` of its draw and old contents, unit by
      unit and, inside a unit, pattern by pattern. */
  method BunchSweep(units: seq<real>, unitsSize: nat, conf: Configuration, draw0: nat,
                    value: (nat, real) -> real) returns (u: seq<real>, draws: nat)
    requires conf.curBunchSize <= conf.maxBunchSize
    requires unitsSize * conf.maxBunchSize <= |units|
    ensures draws == draw0 + unitsSize * conf.curBunchSize
    ensures SweptBunch(units, u, conf, unitsSize, draw0, value)
  {
    var cur := conf.curBunchSize;
    u, draws := units, draw0;
    var i := 0;
    while i < unitsSize
      invariant 0 <= i <= unitsSize
      invariant draws == draw0 + Flat(cur, i, 0)
      invariant SweptBunch(units, u, conf, i, draw0, value)
    {
      MulMonotone(i + 1, unitsSize, conf.maxBunchSize);
      var u0 := u;
      u, draws := SweepUnit(u0, i, conf, draws, value);
      BunchStep(units, u0, u, conf, i, draw0, value);
      FlatNext(cur, i, 0);
      i := i + 1;
    }
  }

  // ---------------------------------------------------------------------
  // the sweep as written

  /** The one slot the source writes for unit `i`: offset
      `i*max_bunch_size + i`. */
  function Diagonal(conf: Configuration, i: nat): nat
  {
    Flat(conf.maxBunchSize + 1, i, 0)
  }

  /** Slot `k` is the diagonal slot of one of the first `n` units. */
  ghost predicate OnDiagonal(k: nat, conf: Configuration, n: nat)
  {
    exists i :: 0 <= i < n && k == Diagonal(conf, i)
  }

  /** `times` successive rewrites of one slot, starting from `v`, with
      draws `draw`, `draw + 1`, ... */
  function Rewrite(v: real, times: nat, draw: nat, value: (nat, real) -> real): real
    decreases times
  {
    if times == 0 then v else Rewrite(value(draw, v), times - 1, draw + 1, value)
  }

  /** `u` is `units` with the slot `Flat(max + 1, i, 0)` of each of the
      first `n` units rewritten `cur_bunch_size` times and every other slot
      untouched. */
  ghost predicate SweptDiagonal(units: seq<real>, u: seq<real>, conf: Configuration, n: nat, draw0: nat,
                                value: (nat, real) -> real)
  {
    && |u| == |units|
    && (forall i :: 0 <= i < n ==>
          Diagonal(conf, i) < |u| &&
          u[Diagonal(conf, i)]
          == Rewrite(units[Diagonal(conf, i)], conf.curBunchSize,
                     draw0 + Flat(conf.curBunchSize, i, 0), value))
    && (forall k :: 0 <= k < |u| && !OnDiagonal(k, conf, n) ==> u[k] == units[k])
  }

  /** The bunch loop of the source for one unit: slot `k` rewritten
      `times` times, nothing else touched. */
  method RewriteSlot(u0: seq<real>, k: nat, times: nat, draw0: nat, value: (nat, real) -> real)
    returns (u: seq<real>, draws: nat)
    requires k < |u0|
    ensures |u| == |u0| && draws == draw0 + times
    ensures u[k] == Rewrite(u0[k], times, draw0, value)
    ensures forall k' :: 0 <= k' < |u| && k' != k ==> u[k'] == u0[k']
  {
    u, draws := u0, draw0;
    var b := 0;
    while b < times
      invariant 0 <= b <= times && |u| == |u0| && draws == draw0 + b
      invariant Rewrite(u[k], times - b, draws, value) == Rewrite(u0[k], times, draw0, value)
      invariant forall k' :: 0 <= k' < |u| && k' != k ==> u[k'] == u0[k']
    {
      u := u[k := value(draws, u[k])];
      draws := draws + 1;
      b := b + 1;
    }
  }

  /** Diagonal slots grow with the unit. */
  lemma DiagonalsIncrease(conf: Configuration, i': nat, i: nat)
    requires i' < i
    ensures Diagonal(conf, i') < Diagonal(conf, i)
  {
    MulMonotone(i' + 1, i, conf.maxBunchSize + 1);
  }

  /** Rewriting the diagonal slot of unit `i` after those before it extends
      the swept prefix by one unit. */
  lemma DiagonalStep(units: seq<real>, u0: seq<real>, u: seq<real>, conf: Configuration, i: nat, draw0: nat,
                     value: (nat, real) -> real)
    requires SweptDiagonal(units, u0, conf, i, draw0, value)
    requires Diagonal(conf, i) < |u0| && |u| == |u0|
    requires u[Diagonal(conf, i)]
             == Rewrite(u0[Diagonal(conf, i)], conf.curBunchSize, draw0 + Flat(conf.curBunchSize, i, 0), value)
    requires forall k' :: 0 <= k' < |u| && k' != Diagonal(conf, i) ==> u[k'] == u0[k']
    ensures SweptDiagonal(units, u, conf, i + 1, draw0, value)
  {
    var k := Diagonal(conf, i);
    forall i' | 0 <= i' < i ensures Diagonal(conf, i') != k
    {
      DiagonalsIncrease(conf, i', i);
    }
    assert u0[k] == units[k] by {
      assert !OnDiagonal(k, conf, i);
    }
    forall i' | 0 <= i' < i + 1
      ensures Diagonal(conf, i') < |u|
      ensures u[Diagonal(conf, i')]
              == Rewrite(units[Diagonal(conf, i')], conf.curBunchSize, draw0 + Flat(conf.curBunchSize, i', 0), value)
    {
    }
    forall k' | 0 <= k' < |u| && !OnDiagonal(k', conf, i + 1)
      ensures u[k'] == units[k']
    {
      assert k' != k;
      assert !OnDiagonal(k', conf, i);
    }
  }

  /** The loop nest of the source: for each unit `i` the bunch loop
      rewrites `units_ptr[i]`, with `units_ptr` advanced by
      `max_bunch_size` per unit.  The last slot it writes must lie in the
      buffer. */
  method DiagonalSweep(units: seq<real>, unitsSize: nat, conf: Configuration, draw0: nat,
                       value: (nat, real) -> real) returns (u: seq<real>, draws: nat)
    requires unitsSize == 0 || Diagonal(conf, unitsSize - 1) < |units|
    ensures draws == draw0 + unitsSize * conf.curBunchSize
    ensures SweptDiagonal(units, u, conf, unitsSize, draw0, value)
  {
    var cur := conf.curBunchSize;
    u, draws := units, draw0;
    var i := 0;
    while i < unitsSize
      invariant 0 <= i <= unitsSize
      invariant draws == draw0 + Flat(cur, i, 0)
      invariant SweptDiagonal(units, u, conf, i, draw0, value)
    {
      MulMonotone(i, unitsSize - 1, conf.maxBunchSize + 1);
      var u0 := u;
      u, draws := RewriteSlot(u0, Diagonal(conf, i), cur, draws, value);
      DiagonalStep(units, u0, u, conf, i, draw0, value);
      FlatNext(cur, i, 0);
      i := i + 1;
    }
  }

  // ---------------------------------------------------------------------
  // applyActivation and randomize

  /** The value a slot gets in `applyActivation`. */
  function SampleValue(sigmoid: real -> real, sample: (nat, real) -> real): (nat, real) -> real
  {
    (n: nat, v: real) => sample(n, sigmoid(v))
  }

  /** The value a slot gets in `randomize`: the draw, ignoring the old
      contents. */
  function UniformValue(uniform: nat -> real): (nat, real) -> real
  {
    (n: nat, v: real) => uniform(n)
  }

  /** `applyActivation` as the source has it.  With `use_cuda` it only
      reports that the accelerator path is missing (`warned`) and runs the
      host loop anyway. */
  method ApplyActivationAsWritten(s: BinarySampler, units: seq<real>, unitsSize: nat, conf: Configuration,
                                  useCuda: bool, sigmoid: real -> real, sample: (nat, real) -> real)
    returns (s': BinarySampler, u: seq<real>, warned: bool)
    requires unitsSize == 0 || Diagonal(conf, unitsSize - 1) < |units|
    ensures warned == useCuda
    ensures s'.draws == s.draws + unitsSize * conf.curBunchSize
    ensures SweptDiagonal(units, u, conf, unitsSize, s.draws, SampleValue(sigmoid, sample))
  {
    var draws;
    u, draws := DiagonalSweep(units, unitsSize, conf, s.draws, SampleValue(sigmoid, sample));
    s', warned := BinarySampler(draws), useCuda;
  }

  /** `randomize` as the source has it. */
  method RandomizeAsWritten(s: BinarySampler, units: seq<real>, unitsSize: nat, conf: Configuration,
                            uniform: nat -> real) returns (s': BinarySampler, u: seq<real>)
    requires unitsSize == 0 || Diagonal(conf, unitsSize - 1) < |units|
    ensures s'.draws == s.draws + unitsSize * conf.curBunchSize
    ensures SweptDiagonal(units, u, conf, unitsSize, s.draws, UniformValue(uniform))
  {
    var draws;
    u, draws := DiagonalSweep(units, unitsSize, conf, s.draws, UniformValue(uniform));
    s' := BinarySampler(draws);
  }

  /** `applyActivation` as intended: every element of the current bunch is
      sampled once. */
  method ApplyActivation(s: BinarySampler, units: seq<real>, unitsSize: nat, conf: Configuration,
                         useCuda: bool, sigmoid: real -> real, sample: (nat, real) -> real)
    returns (s': BinarySampler, u: seq<real>, warned: bool)
    requires conf.curBunchSize <= conf.maxBunchSize
    requires unitsSize * conf.maxBunchSize <= |units|
    ensures warned == useCuda
    ensures s'.draws == s.draws + unitsSize * conf.curBunchSize
    ensures SweptBunch(units, u, conf, unitsSize, s.draws, SampleValue(sigmoid, sample))
  {
    var draws;
    u, draws := BunchSweep(units, unitsSize, conf, s.draws, SampleValue(sigmoid, sample));
    s', warned := BinarySampler(draws), useCuda;
  }

  /** `randomize` as intended: every element of the current bunch receives
      its own uniform draw. */
  method Randomize(s: BinarySampler, units: seq<real>, unitsSize: nat, conf: Configuration,
                   uniform: nat -> real) returns (s': BinarySampler, u: seq<real>)
    requires conf.curBunchSize <= conf.maxBunchSize
    requires unitsSize * conf.maxBunchSize <= |units|
    ensures s'.draws == s.draws + unitsSize * conf.curBunchSize
    ensures SweptBunch(units, u, conf, unitsSize, s.draws, UniformValue(uniform))
  {
    var draws;
    u, draws := BunchSweep(units, unitsSize, conf, s.draws, UniformValue(uniform));
    s' := BinarySampler(draws);
  }

  // ---------------------------------------------------------------------
  // what the two sweeps do differently

  /** As written, pattern 1 of unit 0 (slot 1) is never touched once
      `max_bunch_size >= 1` — whatever the bunch size — while the intended
      sweep samples it whenever the bunch has two patterns. */
  lemma AsWrittenSkipsSecondPattern(units: seq<real>, u: seq<real>, u': seq<real>, conf: Configuration, n: nat,
                                    draw0: nat, value: (nat, real) -> real)
    requires conf.maxBunchSize >= 1 && conf.curBunchSize >= 2 && n >= 1 && |units| >= 2
    requires SweptDiagonal(units, u, conf, n, draw0, value)
    requires SweptBunch(units, u', conf, n, draw0, value)
    ensures u[1] == units[1]
    ensures u'[1] == value(draw0 + 1, units[1])
  {
    assert Flat(conf.maxBunchSize, 0, 1) == 1;
    assert Flat(conf.curBunchSize, 0, 1) == 1;
    if OnDiagonal(1, conf, n) {
      var i :| 0 <= i < n && 1 == Diagonal(conf, i);
      if i >= 1 { MulMonotone(1, i, conf.maxBunchSize + 1); }
      assert false;
    }
  }

  /** As written, the last slot written lies outside the
      `units_size × max_bunch_size` buffer as soon as there are more units
      than bunch slots (3 units, max bunch 2: slot 6 of a 6-cell buffer). */
  lemma AsWrittenOverrunsBuffer(n: nat, mx: nat)
    requires 1 <= mx < n
    ensures Flat(mx + 1, n - 1, 0) >= n * mx
  {
    assert Flat(mx + 1, n - 1, 0) == n * mx + (n - 1 - mx);
  }

  /** The intended sweep is determined by its inputs: a cloned sampler,
      whose generator is in the same state, reproduces the original's
      samples on the same units. */
  lemma SweepIsDeterministic(units: seq<real>, u1: seq<real>, u2: seq<real>, conf: Configuration, n: nat,
                             draw0: nat, value: (nat, real) -> real)
    requires conf.curBunchSize <= conf.maxBunchSize
    requires SweptBunch(units, u1, conf, n, draw0, value)
    requires SweptBunch(units, u2, conf, n, draw0, value)
    ensures u1 == u2
  {
    forall k | 0 <= k < |u1| ensures u1[k] == u2[k]
    {
      if InBunch(k, conf, n) {
        var i, b :| 0 <= i < n && 0 <= b < conf.curBunchSize && k == Flat(conf.maxBunchSize, i, b);
      }
    }
  }
}
