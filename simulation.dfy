/** The node/arrow protocol of the causal-update framework (simulation.py).

    A node's `update` recomputes its variables and reports success; an arrow's
    `effect` copies source variables into its target and reports whether the
    causal relationship applies; an arrow's `update` is the one concrete rule of
    the framework: run the effect, and run the target's update only if the
    effect applied.

    The state an arrow can touch is abstracted as a "world" value `W` (for the
    gear arrows: the target gear and the random source; for the boolean arrow:
    the target's flag). Concrete arrows are classes whose `Update` methods are
    proved equal to `ArrowUpdate` instantiated with their own effect and target
    update. */
module Simulation {

  /** What a caller observes of an `update` call: a returned boolean, or an
      exception escaping from it (the gear's angle computation can raise). */
  datatype Outcome = Returned(value: bool) | Raised

  /** The result of an arrow's `effect`: whether the causal effect applied,
      and the world as the effect left it. */
  datatype Transfer<W> = Transfer(applied: bool, world: W)

  /** The result of an `update`: the outcome and the world afterwards. */
  datatype Step<W> = Step(outcome: Outcome, world: W)

  /** `SimArrow.update`: run `effect`; only when it applied, run the target's
      `update` on the world the effect produced and return its result. */
  function ArrowUpdate<W>(effect: W -> Transfer<W>, targetUpdate: W -> Step<W>, w: W): (r: Step<W>)
    // a declined effect gives False, and the target's update never runs:
    // the world is exactly as the effect left it
    ensures !effect(w).applied ==> r == Step(Returned(false), effect(w).world)
    // an applied effect hands over to the target: its outcome is the arrow's outcome
    ensures effect(w).applied ==> r == targetUpdate(effect(w).world)
    // success means both steps succeeded
    ensures r.outcome == Returned(true) ==>
              effect(w).applied && targetUpdate(effect(w).world).outcome == Returned(true)
  {
    var e := effect(w);
    if e.applied then targetUpdate(e.world) else Step(Returned(false), e.world)
  }
}
