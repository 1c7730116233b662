/** The gear simulation built on the node/arrow protocol (gears.py).

    A `Gear` is a node that tries to turn by `teethMoved` clicks, one click at a
    time, and may break on any click; a `GearPair` is an arrow that copies the
    motion of its source gear to its target gear; a `GearTrain` is a linear
    chain of gears that drives its first gear and then fires its arrows in
    order until one of them fails.

    Python's `random.random()` is a `RandomSource`: a fixed stream of values,
    consumed one per call, shared by every gear like the module-level generator. */
module Gears {
  import opened Simulation

  /** Stand-in for Python's `random` module: `values(i)` is what the i-th call
      of `random.random()` returns, and `drawn` counts the calls made so far. */
  class RandomSource {
    const values: nat -> real
    var drawn: nat

    constructor (values: nat -> real)
      ensures this.values == values && drawn == 0
    {
      this.values := values;
      drawn := 0;
    }

    /** `random.random()`: the next value of the stream. */
    method Random() returns (x: real)
      modifies this
      ensures x == values(old(drawn)) && drawn == old(drawn) + 1
    {
      x := values(drawn);
      drawn := drawn + 1;
    }
  }

  /** The variables of a gear, as a value. */
  datatype GearState = GearState(
    teeth: int,
    angle: real,
    teethMoved: int,
    broken: bool,
    breakProbability: real)

  /** What a gear's update acts on: the gear, and how many random values have
      been drawn so far. */
  datatype Drive = Drive(gear: GearState, drawn: nat)

  /** The number of iterations of `range(requested)`: none when it is negative. */
  function Clicks(requested: int): (n: nat)
    ensures requested >= 0 ==> n == requested
    ensures requested < 0 ==> n == 0
  {
    if requested < 0 then 0 else requested
  }

  /** How many of `n` clicks complete when the click that draws `values(i)`
      breaks the gear exactly when `values(i) < p`, the first click drawing
      `values(from)`: the index of the first breaking click, or `n` if none breaks. */
  function ClicksBeforeBreak(values: nat -> real, p: real, from: nat, n: nat): (k: nat)
    ensures k <= n
    ensures forall j :: from <= j < from + k ==> !(values(j) < p)
    ensures k < n ==> values(from + k) < p
    decreases n
  {
    if n == 0 then 0
    else if values(from) < p then 0
    else 1 + ClicksBeforeBreak(values, p, from + 1, n - 1)
  }

  /** The three properties above determine the count: it is the only number of
      clicks that completes without a breaking draw and stops at one (or at `n`). */
  lemma {:induction false} ClicksBeforeBreakUnique(values: nat -> real, p: real, from: nat, n: nat, k: nat)
    requires k <= n
    requires forall j :: from <= j < from + k ==> !(values(j) < p)
    requires k < n ==> values(from + k) < p
    ensures ClicksBeforeBreak(values, p, from, n) == k
    decreases n
  {
    if k == 0 {
      if n > 0 {
        assert values(from) < p;
      }
    } else {
      assert !(values(from) < p);
      ClicksBeforeBreakUnique(values, p, from + 1, n - 1, k - 1);
    }
  }

  /** `(360 * moved / teeth) % 360` in exact arithmetic: Python's float modulo
      by a positive number gives a value in [0, 360). */
  function Angle(moved: int, teeth: int): (a: real)
    requires teeth != 0
    ensures 0.0 <= a < 360.0
  {
    var x := 360.0 * moved as real / teeth as real;
    x - 360.0 * (x / 360.0).Floor as real
  }

  /** `Gear.update`: a broken gear refuses; otherwise the gear attempts
      `range(teethMoved)` clicks, drawing one random value per click, stops at
      the first draw below its break probability, records the clicks that
      completed, and computes its angle, which raises when `teeth` is 0. */
  function GearStep(values: nat -> real, d: Drive): (r: Step<Drive>)
    // teeth and break probability are never written
    ensures r.world.gear.teeth == d.gear.teeth
    ensures r.world.gear.breakProbability == d.gear.breakProbability
  {
    var g := d.gear;
    if g.broken then Step(Returned(false), d)
    else
      var n := Clicks(g.teethMoved);
      var k := ClicksBeforeBreak(values, g.breakProbability, d.drawn, n);
      var broke := k < n;
      var moved := g.(teethMoved := k, broken := broke);
      var drawn := d.drawn + (if broke then k + 1 else k);
      if g.teeth == 0 then Step(Raised, Drive(moved, drawn))
      else Step(Returned(true), Drive(moved.(angle := Angle(k, g.teeth)), drawn))
  }

  /** `Gear.update` on a broken gear returns False and changes nothing; no
      random value is drawn. */
  lemma BrokenGearRefuses(values: nat -> real, d: Drive)
    requires d.gear.broken
    ensures GearStep(values, d) == Step(Returned(false), d)
  {
  }

  /** `Gear.update` on an unbroken gear. */
  lemma UnbrokenGearTurns(values: nat -> real, d: Drive, r: Step<Drive>)
    requires !d.gear.broken && r == GearStep(values, d)
    // it returns True even if it breaks now; only teeth == 0 raises
    ensures r.outcome == (if d.gear.teeth == 0 then Raised else Returned(true))
    // it never moves more than requested, and never a negative amount
    ensures 0 <= r.world.gear.teethMoved <= Clicks(d.gear.teethMoved)
    // it is broken afterwards exactly when it fell short of the request
    ensures r.world.gear.broken <==> r.world.gear.teethMoved < Clicks(d.gear.teethMoved)
    // the completed clicks drew no breaking value; a break is caused by the draw after them
    ensures forall j :: d.drawn <= j < d.drawn + r.world.gear.teethMoved ==>
              !(values(j) < d.gear.breakProbability)
    ensures r.world.gear.broken ==> values(d.drawn + r.world.gear.teethMoved) < d.gear.breakProbability
    // one value is drawn per attempted click
    ensures r.world.drawn == d.drawn + r.world.gear.teethMoved + (if r.world.gear.broken then 1 else 0)
    // the angle is rewritten, within [0, 360), only when the update returns
    ensures r.outcome == Returned(true) ==> 0.0 <= r.world.gear.angle < 360.0
    ensures r.outcome == Raised ==> r.world.gear.angle == d.gear.angle
  {
  }

  /** `Gear.update` on an unbroken gear, once the number `k` of completed
      clicks is known. */
  lemma GearStepAfterClicks(values: nat -> real, d: Drive, k: nat)
    requires !d.gear.broken
    requires k == ClicksBeforeBreak(values, d.gear.breakProbability, d.drawn, Clicks(d.gear.teethMoved))
    ensures var broke := k < Clicks(d.gear.teethMoved);
            var moved := d.gear.(teethMoved := k, broken := broke);
            var drawn := d.drawn + (if broke then k + 1 else k);
            GearStep(values, d) ==
              if d.gear.teeth == 0 then Step(Raised, Drive(moved, drawn))
              else Step(Returned(true), Drive(moved.(angle := Angle(k, d.gear.teeth)), drawn))
  {
  }

  /** `GearPair.effect` seen from the target: unless the source is broken, the
      target's `teethMoved` becomes the source's. Nothing else is written. */
  function CopyMotion(source: GearState, d: Drive): (e: Transfer<Drive>)
    ensures e.applied == !source.broken
    ensures e.applied ==> e.world.gear.teethMoved == source.teethMoved
    ensures e.applied ==> e.world == d.(gear := e.world.gear) &&
                          e.world.gear == d.gear.(teethMoved := e.world.gear.teethMoved)
    ensures !e.applied ==> e.world == d
  {
    if source.broken then Transfer(false, d)
    else Transfer(true, d.(gear := d.gear.(teethMoved := source.teethMoved)))
  }

  /** `GearPair.update`: the framework's arrow update with the pair's effect
      and the target gear's update. */
  function PairUpdate(values: nat -> real, source: GearState, d: Drive): (r: Step<Drive>)
    // a broken source blocks the pair: False, the target untouched, nothing drawn
    ensures source.broken ==> r == Step(Returned(false), d)
    // an unbroken source drives the target by its own motion
    ensures !source.broken ==> r == GearStep(values, d.(gear := d.gear.(teethMoved := source.teethMoved)))
    // True exactly when the source is unbroken, the target was unbroken and its angle is computable
    ensures r.outcome == Returned(true) <==> !source.broken && !d.gear.broken && d.gear.teeth != 0
  {
    ArrowUpdate((w: Drive) => CopyMotion(source, w), (w: Drive) => GearStep(values, w), d)
  }

  /** A gear: static `teeth`, the variables `angle`, `teethMoved` and `broken`,
      and the per-click break probability. */
  class Gear {
    var teeth: int
    var angle: real
    var teethMoved: int
    var broken: bool
    var breakProbability: real

    constructor (teeth: int)
      ensures State() == GearState(teeth, 0.0, 0, false, 1.0 / 100.0)
    {
      this.teeth := teeth;
      angle := 0.0;
      teethMoved := 0;
      broken := false;
      breakProbability := 1.0 / 100.0;
    }

    function State(): GearState
      reads this
    {
      GearState(teeth, angle, teethMoved, broken, breakProbability)
    }

    /** The click loop of `Gear.update`: up to `n` clicks, one random draw
        each, writing `broken` on every click and stopping at the first that
        breaks the gear. Returns the number of clicks that completed. */
    method TurnClicks(rng: RandomSource, n: nat) returns (moved: nat)
      requires !broken
      modifies this, rng
      ensures moved == ClicksBeforeBreak(rng.values, breakProbability, old(rng.drawn), n)
      ensures broken == (moved < n)
      ensures rng.drawn == old(rng.drawn) + (if broken then moved + 1 else moved)
      ensures teeth == old(teeth) && angle == old(angle) && teethMoved == old(teethMoved)
      ensures breakProbability == old(breakProbability)
    {
      ghost var from := rng.drawn;
      moved := 0;
      for i := 0 to n
        invariant moved == i
        invariant rng.drawn == from + i
        invariant !broken
        invariant teeth == old(teeth) && angle == old(angle) && teethMoved == old(teethMoved)
        invariant breakProbability == old(breakProbability)
        invariant forall j :: from <= j < from + i ==> !(rng.values(j) < breakProbability)
      {
        var x := rng.Random();
        broken := x < breakProbability;
        if broken {
          assert moved < n && rng.values(from + moved) < breakProbability;
          break;
        }
        moved := moved + 1;
      }
      ClicksBeforeBreakUnique(rng.values, breakProbability, from, n, moved);
    }

    /** `Gear.update`, drawing from `rng`. */
    method Update(rng: RandomSource) returns (r: Outcome)
      modifies this, rng
      ensures Step(r, Drive(State(), rng.drawn)) == GearStep(rng.values, Drive(old(State()), old(rng.drawn)))
    {
      if broken {
        return Returned(false);
      }
      ghost var d := Drive(State(), rng.drawn);
      var moved := TurnClicks(rng, Clicks(teethMoved));
      GearStepAfterClicks(rng.values, d, moved);
      teethMoved := moved;
      if teeth == 0 {
        return Raised;
      }
      angle := Angle(moved, teeth);
      return Returned(true);
    }
  }

  /** An arrow between two gears. Its ends are set once, at construction. */
  class GearPair {
    const source: Gear
    const target: Gear

    constructor (source: Gear, target: Gear)
      ensures this.source == source && this.target == target
    {
      this.source := source;
      this.target := target;
    }

    /** `GearPair.effect`: copies the source's motion to the target unless the
        source is broken; never writes the source. */
    method Effect() returns (applied: bool)
      modifies target
      ensures Transfer(applied, target.State()) ==
              var e := CopyMotion(old(source.State()), Drive(old(target.State()), 0));
              Transfer(e.applied, e.world.gear)
      ensures !applied ==> unchanged(target)
      ensures unchanged(source)
    {
      if !source.broken {
        target.teethMoved := source.teethMoved;
        return true;
      }
      return false;
    }

    /** `SimArrow.update` for a gear pair. */
    method Update(rng: RandomSource) returns (r: Outcome)
      modifies target, rng
      ensures Step(r, Drive(target.State(), rng.drawn)) ==
              PairUpdate(rng.values, old(source.State()), Drive(old(target.State()), old(rng.drawn)))
      // a declined effect: False, and the target's update was not run
      ensures old(source.broken) ==> r == Returned(false) && unchanged(target, rng)
      ensures source != target ==> unchanged(source)
    {
      var applied := Effect();
      if applied {
        r := target.Update(rng);
      } else {
        r := Returned(false);
      }
    }
  }

  /** Where a train update ended. */
  datatype TrainEnd =
    | Finished                   // every arrow fired and returned True
    | StoppedAt(arrow: nat)      // arrow `arrow` returned False
    | FirstGearRaised            // the first gear's update raised
    | ArrowRaised(arrow: nat)    // arrow `arrow`'s update raised

  /** The gears of a train after an update, the random values drawn, and where it ended. */
  datatype TrainRun = TrainRun(gears: seq<GearState>, drawn: nat, end: TrainEnd)

  /** Every gear from index `from` on is as it was. */
  ghost predicate UntouchedFrom(after: seq<GearState>, before: seq<GearState>, from: int)
    requires |after| == |before|
  {
    forall j :: 0 <= j < |before| && from <= j ==> after[j] == before[j]
  }

  /** The loop of `GearTrain.update` from arrow `k` on, for a train of distinct
      gears whose arrow `i` links gear `i` to gear `i + 1`. */
  function FireFrom(values: nat -> real, states: seq<GearState>, k: nat, drawn: nat): (r: TrainRun)
    requires k < |states|
    ensures |r.gears| == |states|
    // arrows from k on never write a gear up to k
    ensures forall j :: 0 <= j <= k ==> r.gears[j] == states[j]
    ensures forall j :: 0 <= j < |states| ==>
              r.gears[j].teeth == states[j].teeth &&
              r.gears[j].breakProbability == states[j].breakProbability
    ensures !r.end.FirstGearRaised?
    // a stop at arrow a leaves every gear past a + 1 untouched
    ensures (r.end.StoppedAt? || r.end.ArrowRaised?) ==>
              k <= r.end.arrow < |states| - 1 && UntouchedFrom(r.gears, states, r.end.arrow + 2)
    decreases |states| - k
  {
    if k + 1 == |states| then TrainRun(states, drawn, Finished)
    else
      var u := PairUpdate(values, states[k], Drive(states[k + 1], drawn));
      var next := states[k + 1 := u.world.gear];
      match u.outcome
      case Raised => TrainRun(next, u.world.drawn, ArrowRaised(k))
      case Returned(ok) =>
        if ok then FireFrom(values, next, k + 1, u.world.drawn)
        else TrainRun(next, u.world.drawn, StoppedAt(k))
  }

  /** `GearTrain.update`: update the first gear, ignore what it returns, then
      fire the arrows in order until one returns False. An exception ends it. */
  function TrainUpdate(values: nat -> real, states: seq<GearState>, drawn: nat): (r: TrainRun)
    requires |states| >= 1
    ensures |r.gears| == |states|
    ensures forall j :: 0 <= j < |states| ==>
              r.gears[j].teeth == states[j].teeth &&
              r.gears[j].breakProbability == states[j].breakProbability
    // the first gear is updated first
    ensures r.gears[0] == GearStep(values, Drive(states[0], drawn)).world.gear
    // if its angle raises, no arrow fires
    ensures r.end == FirstGearRaised <==> GearStep(values, Drive(states[0], drawn)).outcome == Raised
    ensures r.end == FirstGearRaised ==> UntouchedFrom(r.gears, states, 1)
    // a stop at arrow a leaves every gear past a + 1 untouched
    ensures (r.end.StoppedAt? || r.end.ArrowRaised?) ==>
              r.end.arrow < |states| - 1 && UntouchedFrom(r.gears, states, r.end.arrow + 2)
    // a broken first gear refuses, blocks the first arrow, and nothing changes
    ensures states[0].broken && |states| > 1 ==>
              r == TrainRun(states, drawn, StoppedAt(0))
  {
    var u := GearStep(values, Drive(states[0], drawn));
    var first := states[0 := u.world.gear];
    if u.outcome == Raised then TrainRun(first, u.world.drawn, FirstGearRaised)
    else FireFrom(values, first, 0, u.world.drawn)
  }

  /** A stop is caused by a broken gear: arrow `a` returns False only when gear
      `a` is broken after its own update or gear `a + 1` was broken before. */
  lemma {:induction false} StopMeansBrokenGear(values: nat -> real, states: seq<GearState>, k: nat, drawn: nat)
    requires k < |states|
    ensures var r := FireFrom(values, states, k, drawn);
            r.end.StoppedAt? ==> r.gears[r.end.arrow].broken || states[r.end.arrow + 1].broken
    decreases |states| - k
  {
    if k + 1 < |states| {
      var u := PairUpdate(values, states[k], Drive(states[k + 1], drawn));
      var next := states[k + 1 := u.world.gear];
      if u.outcome == Returned(true) {
        StopMeansBrokenGear(values, next, k + 1, u.world.drawn);
      }
    }
  }

  /** After a train update that ran to the end, no gear but the last is broken:
      a gear broken before or during the run stops the arrow into or out of it. */
  lemma {:induction false} FinishedLeavesGearsUnbroken(values: nat -> real, states: seq<GearState>, k: nat, drawn: nat)
    requires k < |states|
    ensures var r := FireFrom(values, states, k, drawn);
            r.end == Finished ==> forall j :: k <= j < |states| - 1 ==> !r.gears[j].broken
    decreases |states| - k
  {
    var r := FireFrom(values, states, k, drawn);
    if k + 1 < |states| && r.end == Finished {
      var u := PairUpdate(values, states[k], Drive(states[k + 1], drawn));
      var next := states[k + 1 := u.world.gear];
      FireFromStep(values, states, k, drawn, u.outcome, next, u.world.drawn);
      assert u.outcome == Returned(true) && !states[k].broken;
      FinishedLeavesGearsUnbroken(values, next, k + 1, u.world.drawn);
      forall j | k <= j < |states| - 1
        ensures !r.gears[j].broken
      {
        if j == k {
          assert r.gears[k] == states[k];
        }
      }
    }
  }

  /** Along a run that finishes with no gear broken, every gear from `k` on
      turns by the motion of gear `k`. */
  lemma {:induction false} FireFromTurnsTogether(values: nat -> real, states: seq<GearState>, k: nat, drawn: nat)
    requires k < |states|
    requires states[k].teethMoved >= 0
    ensures var r := FireFrom(values, states, k, drawn);
            r.end == Finished && (forall j :: k <= j < |states| ==> !r.gears[j].broken) ==>
              forall j :: k <= j < |states| ==> r.gears[j].teethMoved == states[k].teethMoved
    decreases |states| - k
  {
    var r := FireFrom(values, states, k, drawn);
    if k + 1 < |states| && r.end == Finished && (forall j :: k <= j < |states| ==> !r.gears[j].broken) {
      var u := PairUpdate(values, states[k], Drive(states[k + 1], drawn));
      var next := states[k + 1 := u.world.gear];
      assert u.outcome == Returned(true);
      assert r == FireFrom(values, next, k + 1, u.world.drawn);
      assert r.gears[k + 1] == next[k + 1];
      assert next[k + 1].teethMoved == states[k].teethMoved;
      FireFromTurnsTogether(values, next, k + 1, u.world.drawn);
    }
  }

  /** A train update that runs to the end with no gear broken turns every gear
      by the number of clicks requested of the first. */
  lemma TrainTurnsTogether(values: nat -> real, states: seq<GearState>, drawn: nat)
    requires |states| >= 1
    ensures var r := TrainUpdate(values, states, drawn);
            r.end == Finished && (forall j :: 0 <= j < |states| ==> !r.gears[j].broken) ==>
              forall j :: 0 <= j < |states| ==> r.gears[j].teethMoved == Clicks(states[0].teethMoved)
  {
    var u := GearStep(values, Drive(states[0], drawn));
    var first := states[0 := u.world.gear];
    if u.outcome != Raised && !states[0].broken {
      FireFromTurnsTogether(values, first, 0, u.world.drawn);
    }
  }

  /** Every random value drawn during an update is at least the break
      probability of the gear that drew it, so no gear breaks; here: all draws
      from `drawn` on are at least every gear's probability. */
  ghost predicate NoBreakingDraws(values: nat -> real, states: seq<GearState>, drawn: nat)
  {
    forall i, j :: drawn <= i && 0 <= j < |states| ==> !(values(i) < states[j].breakProbability)
  }

  /** With draws that never fall below any gear's break probability, an arrow
      run from unbroken gears with non-zero teeth finishes and breaks nothing. */
  lemma {:induction false} FireFromWithoutBreaks(values: nat -> real, states: seq<GearState>, k: nat, drawn: nat)
    requires k < |states|
    requires NoBreakingDraws(values, states, drawn)
    requires forall j :: k <= j < |states| ==> !states[j].broken && states[j].teeth != 0
    ensures var r := FireFrom(values, states, k, drawn);
            r.end == Finished && forall j :: k <= j < |states| ==> !r.gears[j].broken
    decreases |states| - k
  {
    if k + 1 < |states| {
      var u := PairUpdate(values, states[k], Drive(states[k + 1], drawn));
      var next := states[k + 1 := u.world.gear];
      assert u.outcome == Returned(true);
      assert !u.world.gear.broken;
      assert u.world.drawn >= drawn;
      assert NoBreakingDraws(values, next, u.world.drawn);
      FireFromWithoutBreaks(values, next, k + 1, u.world.drawn);
    }
  }

  /** A train of unbroken gears with non-zero teeth, driven by random values
      that never fall below any gear's break probability, runs to the end,
      breaks nothing, and turns every gear by the clicks requested of the first. */
  lemma UnbrokenTrainTurnsTogether(values: nat -> real, states: seq<GearState>, drawn: nat)
    requires |states| >= 1
    requires NoBreakingDraws(values, states, drawn)
    requires forall j :: 0 <= j < |states| ==> !states[j].broken && states[j].teeth != 0
    ensures var r := TrainUpdate(values, states, drawn);
            r.end == Finished &&
            forall j :: 0 <= j < |states| ==>
              !r.gears[j].broken && r.gears[j].teethMoved == Clicks(states[0].teethMoved)
  {
    var u := GearStep(values, Drive(states[0], drawn));
    UnbrokenGearTurns(values, Drive(states[0], drawn), u);
    var first := states[0 := u.world.gear];
    assert !u.world.gear.broken;
    assert NoBreakingDraws(values, first, u.world.drawn);
    FireFromWithoutBreaks(values, first, 0, u.world.drawn);
    TrainTurnsTogether(values, states, drawn);
  }

  /** One iteration of the arrow loop: firing arrow `k` either ends the run or
      leaves the rest of the run to the arrows after it. */
  lemma FireFromStep(values: nat -> real, before: seq<GearState>, k: nat, drawn: nat,
                     outcome: Outcome, after: seq<GearState>, drawnAfter: nat)
    requires k + 1 < |before| == |after|
    requires Step(outcome, Drive(after[k + 1], drawnAfter)) ==
             PairUpdate(values, before[k], Drive(before[k + 1], drawn))
    requires after == before[k + 1 := after[k + 1]]
    ensures outcome == Raised ==> FireFrom(values, before, k, drawn) == TrainRun(after, drawnAfter, ArrowRaised(k))
    ensures outcome == Returned(false) ==> FireFrom(values, before, k, drawn) == TrainRun(after, drawnAfter, StoppedAt(k))
    ensures outcome == Returned(true) ==> FireFrom(values, before, k, drawn) == FireFrom(values, after, k + 1, drawnAfter)
  {
  }

  /** A gear train: a chain of gears and the arrows linking neighbours. */
  class GearTrain {
    var teethMoved: int
    var gears: seq<Gear>
    var arrows: seq<GearPair>

    /** Arrow `i` links gear `i` to gear `i + 1`; there is one arrow fewer than gears. */
    ghost predicate Valid()
      reads this
    {
      |gears| == |arrows| + 1 &&
      forall i :: 0 <= i < |arrows| ==> arrows[i].source == gears[i] && arrows[i].target == gears[i + 1]
    }

    /** No gear appears twice in the chain. */
    ghost predicate Distinct()
      reads this
    {
      forall i, j :: 0 <= i < |gears| && 0 <= j < |gears| && i != j ==> gears[i] != gears[j]
    }

    /** The variables of every gear of the chain, in order. */
    ghost function Snapshot(): seq<GearState>
      reads this, gears
    {
      seq(|gears|, j reads this, gears requires 0 <= j < |gears| => gears[j].State())
    }

    /** The snapshot is determined by the gears' variables. */
    lemma SnapshotIs(states: seq<GearState>)
      requires |states| == |gears|
      requires forall j :: 0 <= j < |gears| ==> gears[j].State() == states[j]
      ensures Snapshot() == states
    {
    }

    constructor (startGear: Gear)
      ensures Valid() && teethMoved == 0 && gears == [startGear] && arrows == []
    {
      teethMoved := 0;
      gears := [startGear];
      arrows := [];
    }

    /** `GearTrain.add_gear`: links the last gear to `gear` and appends it. */
    method AddGear(gear: Gear)
      requires Valid()
      modifies this
      ensures Valid()
      ensures gears == old(gears) + [gear]
      ensures |arrows| == |old(arrows)| + 1 && arrows[..|old(arrows)|] == old(arrows)
      ensures fresh(arrows[|arrows| - 1])
      ensures teethMoved == old(teethMoved)
    {
      var pair := new GearPair(gears[|gears| - 1], gear);
      arrows := arrows + [pair];
      gears := gears + [gear];
    }

    /** `GearTrain.update`; `raised` tells whether an exception escaped. */
    method Update(rng: RandomSource) returns (raised: bool)
      requires Valid() && Distinct()
      modifies gears, rng
      ensures var run := TrainUpdate(rng.values, old(Snapshot()), old(rng.drawn));
              Snapshot() == run.gears && rng.drawn == run.drawn &&
              raised == (run.end.FirstGearRaised? || run.end.ArrowRaised?)
    {
      ghost var states := Snapshot();
      ghost var run := TrainUpdate(rng.values, states, rng.drawn);
      var r := gears[0].Update(rng);
      states := states[0 := gears[0].State()];
      if r == Raised {
        SnapshotIs(states);
        return true;
      }
      for i := 0 to |arrows|
        invariant |states| == |gears|
        invariant forall j :: 0 <= j < |gears| ==> gears[j].State() == states[j]
        invariant FireFrom(rng.values, states, i, rng.drawn) == run
      {
        ghost var d := rng.drawn;
        assert arrows[i].source == gears[i] && arrows[i].target == gears[i + 1];
        label BeforeArrow:
        var outcome := arrows[i].Update(rng);
        ghost var next := states[i + 1 := gears[i + 1].State()];
        forall j | 0 <= j < |gears|
          ensures gears[j].State() == next[j]
        {
          if j != i + 1 {
            assert gears[j] != gears[i + 1];
            assert gears[j].State() == old@BeforeArrow(gears[j].State());
          }
        }
        FireFromStep(rng.values, states, i, d, outcome, next, rng.drawn);
        states := next;
        if outcome == Raised {
          SnapshotIs(states);
          return true;
        }
        if !outcome.value {
          break;
        }
      }
      SnapshotIs(states);
      return false;
    }
  }
}
