/**
 * The per-thread random number generator of the C Monte-Carlo engine
 * (src/patient_sim_main.c): a lazily seeded xorshift64, uniform draws in
 * [0, 1], Box-Muller normal draws that keep the second value of each pair,
 * and draws from a finite categorical distribution.
 *
 * One object of class ThreadRng stands for one thread's state. The entropy
 * that seeds it (time(NULL) mixed with the thread number) is a parameter,
 * and the single-precision transcendental functions are passed in.
 */
module SimRng {
  /** The constant mixed into the seed. */
  const SeedMix: bv64 := 0x1234_5678_9ABC_DEF0

  /** UINT64_MAX as the divisor of random_uniform. */
  const Uint64Max: real := 18446744073709551615.0

  /** FLT_MIN, added before the logarithm. */
  const FltMin: real := 0.0000000000000000000000000000000000000117549435

  /** The value of M_PI. */
  const Pi: real := 3.14159265358979323846

  /** The single-precision library functions the engine calls. */
  datatype Transcendentals = Transcendentals(
    exp: real -> real,
    pow: (real, real) -> real,
    log: real -> real,
    sqrt: real -> real,
    sin: real -> real,
    cos: real -> real)

  /** One xorshift64 state update: s ^= s << 13; s ^= s >> 7; s ^= s << 17. */
  function XorShift(s: bv64): (r: bv64)
    ensures s == 0 <==> r == 0
  {
    var a := s ^ (s << 13);
    var b := a ^ (a >> 7);
    b ^ (b << 17)
  }

  /** The state after k updates from s0. */
  function StateAfter(s0: bv64, k: nat): bv64
  {
    if k == 0 then s0 else XorShift(StateAfter(s0, k - 1))
  }

  /** A non-zero seed never reaches the zero state, the fixed point of the update. */
  lemma {:induction false} StateAfterNonZero(s0: bv64, k: nat)
    ensures StateAfter(s0, k) == 0 <==> s0 == 0
  {
    if k > 0 {
      StateAfterNonZero(s0, k - 1);
    }
  }

  /** random_uniform's scaling of a generator output. */
  function ToUnit(x: bv64): (u: real)
    ensures 0.0 <= u <= 1.0
  {
    (x as int) as real / Uint64Max
  }

  /** The k-th uniform draw (k from 0) of a generator seeded with state s0. */
  function UniformAt(s0: bv64, k: nat): real
  {
    ToUnit(StateAfter(s0, k + 1))
  }

  /** Every value of a uniform stream lies in [0, 1]. */
  lemma UniformAtInUnit(s0: bv64, k: nat)
    ensures 0.0 <= UniformAt(s0, k) <= 1.0
  {
  }

  /** The sum of the first k probabilities. */
  function PrefixSum(probs: seq<real>, k: nat): real
    requires k <= |probs|
  {
    if k == 0 then 0.0 else PrefixSum(probs, k - 1) + probs[k - 1]
  }

  /**
   * The category chosen for r when the scan starts at index i: the least
   * index from i on whose prefix sum reaches r, or the last index.
   */
  function FirstReaching(r: real, probs: seq<real>, i: nat): (c: int)
    requires i <= |probs|
    ensures |probs| == 0 ==> c == -1
    ensures |probs| >= 1 ==> (if i < |probs| then i else |probs| - 1) <= c < |probs|
    ensures forall j :: i + 1 <= j <= c ==> r > PrefixSum(probs, j)
    ensures 0 <= c && i < |probs| && (c < |probs| - 1 || r <= PrefixSum(probs, |probs|)) ==>
      r <= PrefixSum(probs, c + 1)
    decreases |probs| - i
  {
    if i == |probs| then |probs| - 1
    else if r <= PrefixSum(probs, i + 1) then i
    else FirstReaching(r, probs, i + 1)
  }

  /**
   * random_categorical's choice for the uniform r: the least index whose
   * prefix sum is at least r, and the last index when none reaches r.
   */
  function Category(r: real, probs: seq<real>): (c: int)
    ensures -1 <= c < |probs|
    ensures |probs| >= 1 ==> 0 <= c
    ensures forall j :: 1 <= j <= c ==> r > PrefixSum(probs, j)
    ensures 0 <= c && (c < |probs| - 1 || r <= PrefixSum(probs, |probs|)) ==> r <= PrefixSum(probs, c + 1)
  {
    FirstReaching(r, probs, 0)
  }

  /** The prefix-sum scan of random_categorical, which computes Category. */
  method PickCategory(r: real, probs: seq<real>) returns (idx: int)
    ensures idx == Category(r, probs)
    ensures -1 <= idx < |probs|
    ensures |probs| >= 1 ==> 0 <= idx
    ensures forall j :: 1 <= j <= idx ==> r > PrefixSum(probs, j)
    ensures 0 <= idx && (idx < |probs| - 1 || r <= PrefixSum(probs, |probs|)) ==> r <= PrefixSum(probs, idx + 1)
  {
    var cumsum := 0.0;
    var i := 0;
    while i < |probs|
      invariant 0 <= i <= |probs|
      invariant cumsum == PrefixSum(probs, i)
      invariant forall j :: 1 <= j <= i ==> r > PrefixSum(probs, j)
      invariant Category(r, probs) == FirstReaching(r, probs, i)
    {
      cumsum := cumsum + probs[i];
      if r <= cumsum {
        return i;
      }
      i := i + 1;
    }
    return |probs| - 1;
  }

  /**
   * The Box-Muller pair of random_normal for uniforms u and v: the returned
   * sine branch and the kept cosine branch, both already scaled by stddev.
   */
  function BoxMuller(u: real, v: real, stddev: real, m: Transcendentals): (real, real)
  {
    var mag := stddev * m.sqrt(-2.0 * m.log(u + FltMin));
    (mag * m.sin(2.0 * Pi * v), mag * m.cos(2.0 * Pi * v))
  }

  /**
   * The generator's state as a value: whether it has been seeded, the seed,
   * the number of xorshift64 updates since seeding, and the kept Box-Muller
   * value.
   */
  datatype RngState = RngState(initialized: bool, seed: bv64, drawn: nat, hasSpare: bool, spare: real)

  /** A drawn value and the generator state after the draw. */
  datatype Drawn<T> = Drawn(value: T, next: RngState)

  /** The state once the first draw has seeded the generator from the entropy. */
  function Seeded(g: RngState, entropy: bv64): (h: RngState)
    ensures h.initialized && h.hasSpare == g.hasSpare && h.spare == g.spare
    ensures g.initialized ==> h == g
    ensures !g.initialized ==> h.seed == entropy ^ SeedMix && h.drawn == 0
  {
    if g.initialized then g else g.(initialized := true, seed := entropy ^ SeedMix, drawn := 0)
  }

  /** random_uniform() from state g: the next value of the seeded stream. */
  function UniformDraw(g: RngState, entropy: bv64): (r: Drawn<real>)
    ensures 0.0 <= r.value <= 1.0
    ensures r.next.initialized && r.next.hasSpare == g.hasSpare && r.next.spare == g.spare
    ensures r.next.seed == Seeded(g, entropy).seed && r.next.drawn == Seeded(g, entropy).drawn + 1
  {
    var h := Seeded(g, entropy);
    Drawn(UniformAt(h.seed, h.drawn), h.(drawn := h.drawn + 1))
  }

  /**
   * random_normal(mean, stddev) from state g: the kept value when there is
   * one, otherwise the sine branch of a fresh pair, keeping the cosine branch.
   */
  function NormalDraw(g: RngState, mean: real, stddev: real, entropy: bv64, m: Transcendentals): (r: Drawn<real>)
    ensures r.next.hasSpare == !g.hasSpare
    ensures g.hasSpare ==> r.next == g.(hasSpare := false)
    ensures !g.hasSpare ==> r.next.initialized && r.next.seed == Seeded(g, entropy).seed &&
                            r.next.drawn == Seeded(g, entropy).drawn + 2
  {
    if g.hasSpare then Drawn(g.spare * stddev + mean, g.(hasSpare := false))
    else
      var u := UniformDraw(g, entropy);
      var v := UniformDraw(u.next, entropy);
      var pair := BoxMuller(u.value, v.value, stddev, m);
      Drawn(pair.0 + mean, v.next.(hasSpare := true, spare := pair.1))
  }

  /** random_categorical(probs, n) from state g: one uniform, then Category. */
  function CategoricalDraw(g: RngState, probs: seq<real>, entropy: bv64): (r: Drawn<int>)
    ensures -1 <= r.value < |probs|
    ensures |probs| >= 1 ==> 0 <= r.value
    ensures r.next == UniformDraw(g, entropy).next
  {
    var u := UniformDraw(g, entropy);
    Drawn(Category(u.value, probs), u.next)
  }

  /**
   * What each draw returns, in terms of the seeded stream: a uniform is the
   * stream value at the draw's position, a normal the kept value or the first
   * Box-Muller value of the next two, a category that of the next value.
   */
  lemma DrawValues(g: RngState, mean: real, stddev: real, probs: seq<real>, entropy: bv64, m: Transcendentals)
    ensures var r := UniformDraw(g, entropy); r.value == UniformAt(r.next.seed, r.next.drawn - 1)
    ensures var r := CategoricalDraw(g, probs, entropy); r.value == Category(UniformAt(r.next.seed, r.next.drawn - 1), probs)
    ensures var r := NormalDraw(g, mean, stddev, entropy, m);
      g.hasSpare ==> r.value == g.spare * stddev + mean
    ensures !g.hasSpare ==>
      var r := NormalDraw(g, mean, stddev, entropy, m);
      var s, d := r.next.seed, r.next.drawn;
      var pair := BoxMuller(UniformAt(s, d - 2), UniformAt(s, d - 1), stddev, m);
      r.value == pair.0 + mean && r.next.spare == pair.1
  {
  }

  class ThreadRng {
    var state: bv64
    var initialized: bool
    var hasSpare: bool
    var spare: real
    /** The state right after seeding. */
    ghost var seed: bv64
    /** Number of xorshift64 updates since seeding. */
    ghost var drawn: nat

    ghost predicate Valid()
      reads this
    {
      initialized ==> state == StateAfter(seed, drawn)
    }

    /** The state of this generator as a value. */
    ghost function Model(): RngState
      reads this
    {
      RngState(initialized, seed, drawn, hasSpare, spare)
    }

    /** The zero-initialised thread-local variables. */
    constructor ()
      ensures Valid()
      ensures state == 0 && !initialized && !hasSpare && spare == 0.0
    {
      state := 0;
      initialized := false;
      hasSpare := false;
      spare := 0.0;
      seed := 0;
      drawn := 0;
    }

    /**
     * xorshift64(): seeds from the entropy on the first call only; the flag
     * is never cleared.
     */
    method Next(entropy: bv64) returns (x: bv64)
      requires Valid()
      modifies this`state, this`initialized, this`seed, this`drawn
      ensures Valid() && initialized
      ensures old(initialized) ==> seed == old(seed) && drawn == old(drawn) + 1
      ensures !old(initialized) ==> seed == entropy ^ SeedMix && drawn == 1
      ensures x == state
      ensures x == XorShift(if old(initialized) then old(state) else entropy ^ SeedMix)
    {
      if !initialized {
        state := entropy ^ SeedMix;
        initialized := true;
        seed := state;
        drawn := 0;
      }
      state := XorShift(state);
      drawn := drawn + 1;
      x := state;
    }

    /** random_uniform(): the next draw of the stream the seed determines. */
    method Uniform(entropy: bv64) returns (u: real)
      requires Valid()
      modifies this`state, this`initialized, this`seed, this`drawn
      ensures Valid() && initialized
      ensures old(initialized) ==> seed == old(seed) && drawn == old(drawn) + 1
      ensures !old(initialized) ==> seed == entropy ^ SeedMix && drawn == 1
      ensures 0.0 <= u <= 1.0
      ensures u == UniformAt(seed, drawn - 1)
      ensures u == UniformDraw(old(Model()), entropy).value && Model() == UniformDraw(old(Model()), entropy).next
    {
      var x := Next(entropy);
      u := ToUnit(x);
    }

    /**
     * random_normal(mean, stddev): with a spare kept, returns it scaled
     * (a second time) by stddev and draws nothing; otherwise draws two
     * uniforms, keeps the cosine branch and returns the sine branch.
     */
    method Normal(mean: real, stddev: real, entropy: bv64, m: Transcendentals) returns (z: real)
      requires Valid()
      modifies this
      ensures Valid()
      ensures old(hasSpare) ==> !hasSpare && z == old(spare) * stddev + mean
      ensures old(hasSpare) ==>
        state == old(state) && initialized == old(initialized) && seed == old(seed) && drawn == old(drawn)
      ensures !old(hasSpare) ==> hasSpare && initialized && drawn >= 2
      ensures !old(hasSpare) && old(initialized) ==> seed == old(seed) && drawn == old(drawn) + 2
      ensures !old(hasSpare) ==>
        var pair := BoxMuller(UniformAt(seed, drawn - 2), UniformAt(seed, drawn - 1), stddev, m);
        spare == pair.1 && z == pair.0 + mean
      ensures z == NormalDraw(old(Model()), mean, stddev, entropy, m).value
      ensures Model() == NormalDraw(old(Model()), mean, stddev, entropy, m).next
    {
      ghost var g0 := Model();
      if hasSpare {
        hasSpare := false;
        z := spare * stddev + mean;
        assert z == NormalDraw(g0, mean, stddev, entropy, m).value;
        return;
      }
      hasSpare := true;
      var u := Uniform(entropy);
      assert u == UniformDraw(g0, entropy).value;
      var v := Uniform(entropy);
      assert v == UniformDraw(UniformDraw(g0, entropy).next, entropy).value;
      var pair := BoxMuller(u, v, stddev, m);
      spare := pair.1;
      z := pair.0 + mean;
      assert Model() == NormalDraw(g0, mean, stddev, entropy, m).next;
    }

    /** random_categorical(probs, n): one uniform draw, then the prefix-sum scan. */
    method Categorical(probs: seq<real>, entropy: bv64) returns (idx: int)
      requires Valid()
      modifies this`state, this`initialized, this`seed, this`drawn
      ensures Valid() && initialized
      ensures old(initialized) ==> seed == old(seed) && drawn == old(drawn) + 1
      ensures !old(initialized) ==> seed == entropy ^ SeedMix && drawn == 1
      ensures idx == Category(UniformAt(seed, drawn - 1), probs)
      ensures -1 <= idx < |probs|
      ensures |probs| >= 1 ==> 0 <= idx
      ensures idx == CategoricalDraw(old(Model()), probs, entropy).value
      ensures Model() == CategoricalDraw(old(Model()), probs, entropy).next
    {
      var r := Uniform(entropy);
      idx := PickCategory(r, probs);
    }
  }
}
