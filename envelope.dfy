/** The ADSR envelope of one voice (src/ADSREnvelope.cpp): a five-state machine whose level
    moves by a fixed per-sample rate, read out clamped to [0, 1].

    `Env` is the value of the envelope's fields and the functions below are its transitions;
    class `ADSREnvelope` is the in-place form, whose methods update the fields one by one and
    are proved to perform exactly those transitions. */
module Envelope {
  import opened Numeric

  datatype EnvState = Idle | Attack | Decay | Sustain | Release

  /** The fields of an ADSREnvelope: times in seconds, sustain as a level, rates per sample. */
  datatype Env = Env(
    sampleRate: int,
    attack: real, decay: real, sustain: real, release: real,
    state: EnvState, level: real, target: real, rate: real,
    attackRate: real, decayRate: real, releaseRate: real)

  /** The floor the setters put under attack, decay and release times. */
  const MinTime: real := 0.001

  const DefaultAttack: real := 0.1
  const DefaultDecay: real := 0.2
  const DefaultSustain: real := 0.7
  const DefaultRelease: real := 0.5

  /** What the constructor and the setters keep true of the parameters. */
  predicate ParamsOk(e: Env) {
    e.sampleRate > 0 && e.attack >= MinTime && e.decay >= MinTime && e.release >= MinTime
    && 0.0 <= e.sustain <= 1.0
  }

  /** The signs the rates have whenever they were computed from a sustain level in [0, 1]. */
  predicate RatesSigned(e: Env) {
    e.attackRate > 0.0 && e.decayRate >= 0.0 && e.releaseRate <= 0.0
  }

  /** The envelope invariant: the level and the target stay in [0, 1], and each state
      moves the level in its own direction. */
  predicate Inv(e: Env) {
    && ParamsOk(e) && RatesSigned(e)
    && 0.0 <= e.level <= 1.0 && 0.0 <= e.target <= 1.0
    && (e.state == Idle ==> e.level == 0.0)
    && (e.state == Attack ==> e.target == 1.0 && e.rate > 0.0)
    && (e.state == Decay ==> e.rate <= 0.0)
    && (e.state == Release ==> e.target == 0.0 && e.rate <= 0.0)
  }

  lemma PositiveQuotient(x: real, y: real)
    requires x > 0.0 && y > 0.0
    ensures x / y > 0.0
  {
  }

  /** calculateRates: attack climbs from 0 to 1, decay falls from 1 to the sustain level, and
      release falls from the sustain level to 0, each in exactly its time's worth of samples. */
  function WithRates(e: Env): (r: Env)
    requires ParamsOk(e)
    ensures ParamsOk(r) && RatesSigned(r)
    ensures r.attackRate * (e.attack * e.sampleRate as real) == 1.0
    ensures r.decayRate * (e.decay * e.sampleRate as real) == 1.0 - e.sustain
    ensures r.releaseRate * (e.release * e.sampleRate as real) == -e.sustain
    ensures r.(attackRate := e.attackRate, decayRate := e.decayRate, releaseRate := e.releaseRate) == e
  {
    var sr := e.sampleRate as real;
    PositiveQuotient(1.0, e.attack * sr);
    e.(attackRate := 1.0 / (e.attack * sr),
       decayRate := (1.0 - e.sustain) / (e.decay * sr),
       releaseRate := -e.sustain / (e.release * sr))
  }

  /** Once calculateRates has run, the rates fit the parameters the envelope now holds. */
  predicate RatesFit(e: Env) {
    && e.attackRate * (e.attack * e.sampleRate as real) == 1.0
    && e.decayRate * (e.decay * e.sampleRate as real) == 1.0 - e.sustain
    && e.releaseRate * (e.release * e.sampleRate as real) == -e.sustain
  }

  lemma WithRatesFit(e: Env)
    requires ParamsOk(e)
    ensures RatesFit(WithRates(e))
  {
    var r := WithRates(e);
    assert r.attack == e.attack && r.decay == e.decay && r.sustain == e.sustain;
    assert r.release == e.release && r.sampleRate == e.sampleRate;
  }

  /** The constructor: default times, idle at level 0, rates computed. */
  function New(sampleRate: int): (e: Env)
    requires sampleRate > 0
    ensures Inv(e) && e.state == Idle && e.level == 0.0 && e.rate == 0.0
    ensures e.sampleRate == sampleRate
    ensures e.attack == DefaultAttack && e.decay == DefaultDecay
    ensures e.sustain == DefaultSustain && e.release == DefaultRelease
  {
    WithRates(Env(sampleRate, DefaultAttack, DefaultDecay, DefaultSustain, DefaultRelease,
                  Idle, 0.0, 0.0, 0.0, 0.0, 0.0, 0.0))
  }

  /** trigger: from any state enter Attack towards 1 at the attack rate; the level is kept. */
  function Triggered(e: Env): (r: Env)
    ensures r.state == Attack && r.target == 1.0 && r.rate == e.attackRate
    ensures r.(state := e.state, target := e.target, rate := e.rate) == e
    ensures Inv(e) ==> Inv(r)
  {
    e.(state := Attack, target := 1.0, rate := e.attackRate)
  }

  /** release: a no-op when idle; otherwise enter Release towards 0 at the release rate. */
  function Released(e: Env): (r: Env)
    ensures e.state == Idle ==> r == e
    ensures e.state != Idle ==> r.state == Release && r.target == 0.0 && r.rate == e.releaseRate
    ensures r.(state := e.state, target := e.target, rate := e.rate) == e
    ensures Inv(e) ==> Inv(r)
  {
    if e.state != Idle then e.(state := Release, target := 0.0, rate := e.releaseRate) else e
  }

  /** The state update of one call to process. */
  function Advanced(e: Env): (r: Env)
    ensures r.(state := e.state, level := e.level, target := e.target, rate := e.rate) == e
  {
    match e.state
    case Idle => e.(level := 0.0)
    case Attack =>
      var l := e.level + e.rate;
      if l >= e.target then e.(level := e.target, state := Decay, target := e.sustain, rate := -e.decayRate)
      else e.(level := l)
    case Decay =>
      var l := e.level + e.rate;
      if l <= e.target then e.(level := e.target, state := Sustain, rate := 0.0)
      else e.(level := l)
    case Sustain => e.(level := e.sustain)
    case Release =>
      var l := e.level + e.rate;
      if l <= 0.0 then e.(level := 0.0, state := Idle, rate := 0.0)
      else e.(level := l)
  }

  /** process: one step, and the new level clamped to [0, 1] as the gain. Under the invariant
      the clamp never changes the level. */
  function Processed(e: Env): (r: (Env, real))
    ensures r.0 == Advanced(e)
    ensures 0.0 <= r.1 <= 1.0
    ensures Inv(e) ==> Inv(r.0) && r.1 == r.0.level
  {
    var n := Advanced(e);
    (n, Clamp(n.level, 0.0, 1.0))
  }

  /** setAttack, setDecay, setRelease floor the time at MinTime and recompute the rates;
      none of them touches the rate of the stage in flight. */
  function WithAttack(e: Env, attack: real): (r: Env)
    requires ParamsOk(e)
    ensures r.attack >= MinTime && (attack >= MinTime ==> r.attack == attack)
    ensures r == WithRates(e.(attack := r.attack))
    ensures r.state == e.state && r.level == e.level && r.target == e.target && r.rate == e.rate
    ensures Inv(e) ==> Inv(r)
  {
    WithRates(e.(attack := Max(MinTime, attack)))
  }

  function WithDecay(e: Env, decay: real): (r: Env)
    requires ParamsOk(e)
    ensures r.decay >= MinTime && (decay >= MinTime ==> r.decay == decay)
    ensures r == WithRates(e.(decay := r.decay))
    ensures r.state == e.state && r.level == e.level && r.target == e.target && r.rate == e.rate
    ensures Inv(e) ==> Inv(r)
  {
    WithRates(e.(decay := Max(MinTime, decay)))
  }

  function WithRelease(e: Env, release: real): (r: Env)
    requires ParamsOk(e)
    ensures r.release >= MinTime && (release >= MinTime ==> r.release == release)
    ensures r == WithRates(e.(release := r.release))
    ensures r.state == e.state && r.level == e.level && r.target == e.target && r.rate == e.rate
    ensures Inv(e) ==> Inv(r)
  {
    WithRates(e.(release := Max(MinTime, release)))
  }

  /** setSustain clamps to [0, 1] and, unlike the other setters, does not recompute the rates. */
  function WithSustain(e: Env, sustain: real): (r: Env)
    ensures 0.0 <= r.sustain <= 1.0 && (0.0 <= sustain <= 1.0 ==> r.sustain == sustain)
    ensures r.(sustain := e.sustain) == e
    ensures Inv(e) ==> Inv(r)
  {
    e.(sustain := Clamp(sustain, 0.0, 1.0))
  }

  function IsActive(e: Env): bool {
    e.state != Idle
  }

  /** n consecutive calls to process. */
  function Run(e: Env, n: nat): Env
    decreases n
  {
    if n == 0 then e else Run(Advanced(e), n - 1)
  }

  /** The invariant survives any number of calls to process. */
  lemma {:induction false} RunPreservesInv(e: Env, n: nat)
    requires Inv(e)
    ensures Inv(Run(e, n))
    decreases n
  {
    if n > 0 {
      assert Inv(Processed(e).0);
      RunPreservesInv(Advanced(e), n - 1);
    }
  }

  /** During Attack the level never falls. */
  lemma AttackNonDecreasing(e: Env)
    requires Inv(e) && e.state == Attack
    ensures Advanced(e).level >= e.level
  {
  }

  /** An attack whose remaining climb fits in n steps peaks at 1 and enters Decay within n calls. */
  lemma {:induction false} AttackReachesPeak(e: Env, n: nat)
    requires Inv(e) && e.state == Attack && 1 <= n
    requires e.level + n as real * e.rate >= 1.0
    ensures exists m :: 1 <= m <= n && Run(e, m).state == Decay && Run(e, m).level == 1.0
    decreases n
  {
    var e' := Advanced(e);
    if e.level + e.rate >= 1.0 {
      assert Run(e, 1) == Run(e', 0) == e';
    } else {
      assert e'.state == Attack && e'.level == e.level + e.rate && e'.rate == e.rate;
      assert Inv(Processed(e).0);
      assert n != 1;
      assert e'.level + (n - 1) as real * e'.rate == e.level + n as real * e.rate;
      AttackReachesPeak(e', n - 1);
      var m :| 1 <= m <= n - 1 && Run(e', m).state == Decay && Run(e', m).level == 1.0;
      assert Run(e, m + 1) == Run(e', m);
    }
  }

  /** The smallest integer not below x. */
  function Ceil(x: real): (n: int)
    ensures x <= n as real < x + 1.0
  {
    -((-x).Floor)
  }

  lemma ScaledQuotient(n: real, x: real)
    requires x > 0.0 && n >= x
    ensures n * (1.0 / x) >= 1.0
  {
    assert n * (1.0 / x) == n / x;
  }

  /** Triggered from silence right after setAttack(a), an envelope reaches level 1 within
      ceil(a * sampleRate) calls to process. */
  lemma AttackWithinAttackTime(e: Env, a: real)
    requires Inv(e) && e.level == 0.0 && a >= MinTime
    ensures var t := Triggered(WithAttack(e, a));
      var n := Ceil(a * e.sampleRate as real);
      n >= 1 && exists m :: 1 <= m <= n && Run(t, m).state == Decay && Run(t, m).level == 1.0
  {
    var t := Triggered(WithAttack(e, a));
    var x := a * e.sampleRate as real;
    var n := Ceil(x);
    assert x > 0.0;
    assert t.rate == 1.0 / x;
    ScaledQuotient(n as real, x);
    AttackReachesPeak(t, n);
  }

  /** With sustain 0 the release rate is 0, so a release entered at a positive level (say
      during Attack) never reaches Idle: the note hangs at that level. */
  lemma {:induction false} ZeroRateReleaseNeverEnds(e: Env, n: nat)
    requires e.state == Release && e.rate == 0.0 && e.level > 0.0
    ensures Run(e, n) == e
    decreases n
  {
    if n > 0 {
      assert Advanced(e) == e;
      ZeroRateReleaseNeverEnds(e, n - 1);
    }
  }

  /** A release at a negative rate reaches Idle, at level 0, within any n calls whose total
      fall covers the current level. */
  lemma {:induction false} ReleaseReachesIdle(e: Env, n: nat)
    requires Inv(e) && e.state == Release && e.rate < 0.0 && 1 <= n
    requires e.level + n as real * e.rate <= 0.0
    ensures Run(e, n).state == Idle && Run(e, n).level == 0.0
    decreases n
  {
    var e' := Advanced(e);
    assert Inv(Processed(e).0);
    if e.level + e.rate <= 0.0 {
      IdleStays(e', n - 1);
    } else {
      assert n != 1;
      assert e'.level + (n - 1) as real * e'.rate == e.level + n as real * e.rate;
      ReleaseReachesIdle(e', n - 1);
    }
  }

  /** Idle is absorbing under process. */
  lemma {:induction false} IdleStays(e: Env, n: nat)
    requires e.state == Idle && e.level == 0.0
    ensures Run(e, n) == e
    decreases n
  {
    if n > 0 {
      assert Advanced(e) == e;
      IdleStays(e, n - 1);
    }
  }

  /** The in-place envelope: the fields of src/ADSREnvelope.h. */
  class ADSREnvelope {
    const sampleRate: int
    var attack: real
    var decay: real
    var sustain: real
    var release: real
    var state: EnvState
    var currentLevel: real
    var targetLevel: real
    var rate: real
    var attackRate: real
    var decayRate: real
    var releaseRate: real

    /** The value the fields hold. */
    function Value(): Env
      reads this
    {
      Env(sampleRate, attack, decay, sustain, release, state, currentLevel, targetLevel, rate,
          attackRate, decayRate, releaseRate)
    }

    ghost predicate Valid()
      reads this
    {
      Inv(Value())
    }

    constructor (sampleRate: int)
      requires sampleRate > 0
      ensures Value() == New(sampleRate) && Valid()
    {
      this.sampleRate := sampleRate;
      attack, decay, sustain, release := DefaultAttack, DefaultDecay, DefaultSustain, DefaultRelease;
      state := Idle;
      currentLevel, targetLevel, rate := 0.0, 0.0, 0.0;
      new;
      CalculateRates();
    }

    method Trigger()
      requires Valid()
      modifies this
      ensures Value() == Triggered(old(Value())) && Valid()
    {
      state := Attack;
      targetLevel := 1.0;
      rate := attackRate;
    }

    method Release()
      requires Valid()
      modifies this
      ensures Value() == Released(old(Value())) && Valid()
    {
      if state != Idle {
        state := EnvState.Release;
        targetLevel := 0.0;
        rate := releaseRate;
      }
    }

    method Process() returns (out: real)
      requires Valid()
      modifies this
      ensures (Value(), out) == Processed(old(Value()))
      ensures Valid() && 0.0 <= out <= 1.0
    {
      match state {
        case Idle =>
          currentLevel := 0.0;
        case Attack =>
          currentLevel := currentLevel + rate;
          if currentLevel >= targetLevel {
            currentLevel := targetLevel;
            state := Decay;
            targetLevel := sustain;
            rate := -decayRate;
          }
        case Decay =>
          currentLevel := currentLevel + rate;
          if currentLevel <= targetLevel {
            currentLevel := targetLevel;
            state := Sustain;
            rate := 0.0;
          }
        case Sustain =>
          currentLevel := sustain;
        case Release =>
          currentLevel := currentLevel + rate;
          if currentLevel <= 0.0 {
            currentLevel := 0.0;
            state := Idle;
            rate := 0.0;
          }
      }
      out := Max(0.0, Min(1.0, currentLevel));
    }

    method SetAttack(attack: real)
      requires Valid()
      modifies this
      ensures Value() == WithAttack(old(Value()), attack) && Valid()
    {
      this.attack := Max(MinTime, attack);
      CalculateRates();
    }

    method SetDecay(decay: real)
      requires Valid()
      modifies this
      ensures Value() == WithDecay(old(Value()), decay) && Valid()
    {
      this.decay := Max(MinTime, decay);
      CalculateRates();
    }

    method SetSustain(sustain: real)
      requires Valid()
      modifies this
      ensures Value() == WithSustain(old(Value()), sustain) && Valid()
    {
      this.sustain := Max(0.0, Min(1.0, sustain));
    }

    method SetRelease(release: real)
      requires Valid()
      modifies this
      ensures Value() == WithRelease(old(Value()), release) && Valid()
    {
      this.release := Max(MinTime, release);
      CalculateRates();
    }

    method IsActive() returns (active: bool)
      ensures active <==> state != Idle
    {
      active := state != Idle;
    }

    method CalculateRates()
      requires ParamsOk(Value())
      modifies this`attackRate, this`decayRate, this`releaseRate
      ensures Value() == WithRates(old(Value()))
    {
      var sr := sampleRate as real;
      attackRate := 1.0 / (attack * sr);
      decayRate := (1.0 - sustain) / (decay * sr);
      releaseRate := -sustain / (release * sr);
    }
  }
}
