# Causal-update framework and gear simulation, in Dafny

This project models the core of a small causal-update framework for
simulations, and the two uses of it found in the repository.

- **Nodes and arrows** (`simulation.dfy`, module `Simulation`). A node
  wraps simulation variables and has an `update` that reports success. An
  arrow links a source node to a target node. Its `effect` copies source
  variables into the target and reports whether the causal link applies.
  The one concrete rule of the framework is the arrow's `update`: run the
  effect, then run the target's `update` only if the effect applied.
  `ArrowUpdate` states this rule once, over an abstract "world" (the part
  of the state the arrow can touch). Dafny traits are not used. Each
  concrete arrow is a class whose `Update` method is proved equal to
  `ArrowUpdate` built from its own effect and its target's update.
- **Gears** (`gears.dfy`, module `Gears`).
  - A `Gear` tries to turn by `teethMoved` clicks, one click at a time. It
    may break on any click, and a broken gear refuses to move.
  - A `GearPair` copies the motion of its source gear to its target gear,
    unless the source is broken.
  - A `GearTrain` is a chain of gears. Its `update` drives the first gear,
    then fires the arrows in order and stops at the first one that fails.
  - Python's `random.random()` is a `RandomSource` object. It holds a fixed
    stream of values, consumed one per call and shared by every gear, like
    the module-level generator. The break test `random() < probability`
    stays in the model, so every property holds for every possible stream.
  - Four methods are each proved equal to a function on values. The lemmas
    are stated about those functions.
    - `Gear.TurnClicks` equals `ClicksBeforeBreak`.
    - `Gear.Update` equals `GearStep`.
    - `GearPair.Effect` equals `CopyMotion`.
    - `GearPair.Update` equals `PairUpdate`.
  - `GearTrain.Update` is proved equal to `TrainUpdate`, which is built on
    `FireFrom`.
  - `RandomSource.Random` and `GearTrain.AddGear` state their new state
    directly in their contracts.
- **Boolean nodes** (`boolean_nodes.dfy`, module `BooleanNodes`). This is
  the second instance, from the test file. A switch-like node holds one
  flag, and an arrow copies the flag. `ChangePropagation` is the test
  scenario.

The exception that the gear's angle computation raises when `teeth` is 0
(`ZeroDivisionError`) is modelled as the outcome `Raised`. It escapes from
`Gear.update`, `GearPair.update` and `GearTrain.update` in turn, after
`broken` and `teeth_moved` have already been written.

Some facts about the code that shape the model:

- `SimGraph` is an empty class (simulation.py:59-66). The code has no
  graph-level propagation, snapshot or rollback.
- No node class defines a `get_variables` method.
- `Gear.update` draws fresh random values on every call and can break the
  gear. Calling it twice is therefore not the same as calling it once.

## Model

| member | source | states |
|---|---|---|
| Simulation.ArrowUpdate | simulation.py:45-48 | If the effect declines, the result is False and the world is exactly as the effect left it: the target's update never runs. If the effect applies, the result is the target's update result. True means both steps succeeded. |
| Gears.GearPair.Update | simulation.py:45-48 | A gear pair's update equals `PairUpdate` on the old source, the old target and the random source. A broken source gives False, and the target and random source are unchanged. The arrow's ends are `const`, so they are never reassigned. A source distinct from the target is never written. |
| BooleanNodes.BooleanArrow.Update | simulation.py:45-48 | A boolean arrow's update equals `FlagArrowUpdate` on the old flags. The source is never written. |
| Gears.RandomSource.Random | gears.py:26 | Each call returns the next value of the stream and advances the draw count by one. |
| Gears.Clicks | gears.py:25 | `range(n)` runs `n` times for `n >= 0` and not at all for a negative `n`. |
| Gears.ClicksBeforeBreak | gears.py:24-29 | The count of completed clicks is at most the number requested. No completed click drew a value below the break probability. When the count falls short, the next draw is below it. |
| Gears.ClicksBeforeBreakUnique | gears.py:24-29 | Those three properties determine the count. Any number satisfying them equals `ClicksBeforeBreak`. |
| Gears.Angle | gears.py:31 | The angle `(360 * moved / teeth) % 360` lies in [0, 360) for non-zero `teeth`. |
| Gears.GearStep | gears.py:21-32 | A gear's update never changes `teeth` or the break probability. |
| Gears.BrokenGearRefuses | gears.py:22-23 | On a broken gear, the update returns False, changes nothing and draws nothing. |
| Gears.UnbrokenGearTurns | gears.py:24-32 | On an unbroken gear, the update returns True even when the gear breaks now. It raises only when `teeth` is 0. Afterwards 0 <= `teethMoved` <= max(old `teethMoved`, 0). The gear is broken exactly when it moved less than requested. A break comes from the draw after the completed clicks, and one value is drawn per attempted click. The angle is rewritten, within [0, 360), only on return. |
| Gears.Gear.constructor | gears.py:10-19 | A new gear has the given teeth, angle 0, no motion, is unbroken, and has break probability 1/100. |
| Gears.Gear.TurnClicks | gears.py:24-29 | The click loop completes exactly `ClicksBeforeBreak` clicks. It leaves `broken` set exactly when it stopped short, draws one value per attempted click, and writes no other variable of the gear. |
| Gears.Gear.Update | gears.py:21-32 | The click loop leaves the gear and the random source exactly as `GearStep` describes, and returns its outcome. |
| Gears.CopyMotion | gears.py:41-45 | The effect applies exactly when the source is unbroken. It then sets only the target's `teethMoved`, to the source's. A declined effect changes nothing. |
| Gears.GearPair.Effect | gears.py:41-45 | The method returns and writes what `CopyMotion` describes and never changes the source. A declined effect leaves the target unchanged. |
| Gears.PairUpdate | gears.py:41-45 | A broken source gives False, with the target untouched and nothing drawn. An unbroken source runs the target's update on the source's motion. The result is True exactly when the source and the target were unbroken and the target's `teeth` is non-zero. |
| Gears.GearPair.constructor | gears.py:37-39 | The pair links the given source to the given target. |
| Gears.GearTrain.constructor | gears.py:50-53 | A new train holds only the start gear, no arrows, and `teethMoved` 0. |
| Gears.GearTrain.AddGear | gears.py:55-57 | The new gear is appended, with a fresh arrow from the old last gear to it. The chain invariant holds afterwards: one arrow fewer than gears, and arrow i links gear i to gear i+1. |
| Gears.FireFrom | gears.py:60-63 | The arrow loop never writes gears up to the current arrow's source, and never changes any gear's teeth or break probability. A stop or exception at arrow a leaves every gear past a+1 untouched. |
| Gears.TrainUpdate | gears.py:59-63 | The first gear is updated first and its result is ignored, but an exception from it ends the update. A stop at arrow a leaves every gear past a+1 untouched. A broken first gear stops the train at arrow 0 with nothing changed. |
| Gears.GearTrain.Update | gears.py:59-63 | For a chain of distinct gears, the gears and the random source end as `TrainUpdate` describes, and an exception escapes exactly when the run ended with one. |
| Gears.StopMeansBrokenGear | gears.py:60-63 | Arrow a stops the loop only when gear a is broken after its own update, or gear a+1 was broken before. |
| Gears.FinishedLeavesGearsUnbroken | gears.py:60-63 | After a loop that ran to the end, no gear except possibly the last is broken. |
| Gears.FireFromTurnsTogether | gears.py:60-63 | Suppose the gear the loop starts from has a non-negative `teethMoved`. If the loop then runs to the end and no gear is broken, every gear turns by that gear's motion. |
| Gears.TrainTurnsTogether | gears.py:59-63 | If a train update runs to the end and no gear is broken, every gear turns by max(requested, 0) clicks. |
| Gears.FireFromWithoutBreaks | gears.py:60-63 | If no draw falls below any gear's break probability, a loop over unbroken gears with non-zero teeth runs to the end and breaks nothing. |
| Gears.UnbrokenTrainTurnsTogether | gears.py:59-63 | Under the same conditions, a train update runs to the end, breaks nothing, and turns every gear by the clicks requested of the first. |
| BooleanNodes.BooleanNode.constructor | test_simulation.py:16-17 | A new node's flag is off. |
| BooleanNodes.BooleanNode.Update | test_simulation.py:19-23 | The update always succeeds. As a function, it changes nothing. It is `SwitchUpdate` on the node's own flag, the step the arrow's update runs. |
| BooleanNodes.SwitchUpdate | test_simulation.py:19-23 | The node's update as a world step: it returns True and leaves the flag as it was. |
| BooleanNodes.BooleanNode.GetStateVariables | test_simulation.py:25-26 | The state variables are an empty mapping. |
| BooleanNodes.BooleanNode.GetInputVariables | test_simulation.py:28-29 | The input variables are exactly `{"input_state": current flag}`. |
| BooleanNodes.BooleanArrow.constructor | test_simulation.py:35-37 | The arrow links the given source to the given target. |
| BooleanNodes.CopyFlag | test_simulation.py:39-44 | The effect always applies, and the target's flag becomes the source's. |
| BooleanNodes.BooleanArrow.Effect | test_simulation.py:39-44 | The method does what `CopyFlag` says and never changes the source. |
| BooleanNodes.FlagArrowUpdate | test_simulation.py:32-44 | Whatever the target held, the arrow's update returns True and the target ends up holding the source's flag. |
| BooleanNodes.ChangePropagation | test_simulation.py:60-69 | Both fresh nodes start off. After the source is switched on, the arrow's update returns True, the target is on, and the source is still on. |

## Left out

- `SimGraph` (simulation.py:59-66) is an empty class. Its docstring
  promises that a cycle stops the causal chain, but no traversal, cycle
  check, snapshot or rollback exists in the code, so none is modelled.
- roguelike.py is not part of this model. It is a draft that cannot run: a
  misspelled decorator, an undefined `Object` and an undefined `main`. It
  has no behaviour beyond empty class-level sets.
- The abstract `SimNode.update` and `SimArrow.effect` (simulation.py:26-32,
  50-56) have no body. The model states their contracts on each concrete
  node and arrow instead of on an abstract type.
- `random.random()`: its distribution, and the fact that its values lie in
  [0, 1), are not modelled. Every property holds for any stream of values.
- Floating point: the angle, the break probability 1/100 and the draws are
  exact reals. Float rounding is not modelled, for example a `%` result
  that rounds up to 360.0.
- Gears.GearTrain.Update: specified only for trains whose gears are
  distinct objects. `add_gear` accepts the same gear twice, and the effect
  of such aliasing on the loop is not modelled.
- Gears.GearTrain.Update: Python's `update` returns `None`. The model
  returns only whether an exception escaped. Where the loop stopped is in
  the specification function `TrainUpdate`.
- The train's own `teeth_moved` field is set by the constructor and never
  read. It is kept as a field with no further role.
- Errors other than the division by zero are not modelled, for example a
  non-gear passed to `add_gear`, a non-numeric `teeth` or a non-integer
  `teeth_moved`. Python also accepts a float `teeth`, but the model takes
  `teeth` as an integer.
- Test harness code is not modelled: pytest fixtures (test_simulation.py:47-57),
  the unused `random` import (simulation.py:12) and module docstrings.
