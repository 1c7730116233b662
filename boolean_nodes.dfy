/** The second instance of the node/arrow protocol (test_simulation.py): a
    switch-like node holding one flag, an arrow that copies the flag, and the
    scenario that checks a change propagates along the arrow. */
module BooleanNodes {
  import opened Simulation

  /** `BooleanNode.update` as a world transformer: the node has no internal
      mechanism, so the update succeeds and changes nothing. */
  function SwitchUpdate(flag: bool): (r: Step<bool>)
    ensures r.outcome == Returned(true) && r.world == flag
  {
    Step(Returned(true), flag)
  }

  /** `BooleanArrow.effect` seen from the target: the target's flag becomes
      the source's, and the effect always applies. */
  function CopyFlag(source: bool, flag: bool): (e: Transfer<bool>)
    ensures e.applied && e.world == source
  {
    Transfer(true, source)
  }

  /** `BooleanArrow.update`: the framework's arrow update with the flag copy
      and the target's update. Whatever the target held, the call returns True
      and the target ends up holding the source's flag. */
  function FlagArrowUpdate(source: bool, target: bool): (r: Step<bool>)
    ensures r == Step(Returned(true), source)
  {
    ArrowUpdate((w: bool) => CopyFlag(source, w), (w: bool) => SwitchUpdate(w), target)
  }

  /** A node holding one boolean flag and no internal state. */
  class BooleanNode {
    var inputState: bool

    constructor ()
      ensures !inputState
    {
      inputState := false;
    }

    /** `BooleanNode.update`: nothing to recompute; always succeeds. It is
        `SwitchUpdate` on this node's flag. */
    function Update(): (ok: bool)
      reads this
      ensures ok
      ensures Step(Returned(ok), inputState) == SwitchUpdate(inputState)
    {
      true
    }

    /** `get_state_variables`: the node has no internal state. */
    function GetStateVariables(): (vars: map<string, bool>)
      ensures vars.Keys == {}
    {
      map[]
    }

    /** `get_input_variables`: exactly the one input flag. */
    function GetInputVariables(): (vars: map<string, bool>)
      reads this
      ensures vars.Keys == {"input_state"} && vars["input_state"] == inputState
    {
      map["input_state" := inputState]
    }
  }

  /** An arrow between two boolean nodes. Its ends are set once, at construction. */
  class BooleanArrow {
    const source: BooleanNode
    const target: BooleanNode

    constructor (source: BooleanNode, target: BooleanNode)
      ensures this.source == source && this.target == target
    {
      this.source := source;
      this.target := target;
    }

    /** `BooleanArrow.effect`: copies the source's flag into the target. */
    method Effect() returns (applied: bool)
      modifies target
      ensures Transfer(applied, target.inputState) == CopyFlag(old(source.inputState), old(target.inputState))
      ensures unchanged(source)
    {
      target.inputState := source.inputState;
      return true;
    }

    /** `SimArrow.update` for a boolean arrow. */
    method Update() returns (ok: bool)
      modifies target
      ensures Step(Returned(ok), target.inputState) ==
              FlagArrowUpdate(old(source.inputState), old(target.inputState))
      ensures unchanged(source)
    {
      var applied := Effect();
      if applied {
        ok := target.Update();
      } else {
        ok := false;
      }
    }
  }

  /** `test_change_propagation`: two fresh nodes linked by an arrow; switching
      the source on and updating the arrow returns True, switches the target
      on and leaves the source on. */
  method ChangePropagation() returns (initiallyOff: bool, ok: bool, sourceOn: bool, targetOn: bool)
    ensures initiallyOff && ok && sourceOn && targetOn
  {
    var node1 := new BooleanNode();
    var node2 := new BooleanNode();
    var arrow := new BooleanArrow(node1, node2);
    initiallyOff := !node1.inputState && !node2.inputState;
    node1.inputState := true;
    ok := arrow.Update();
    sourceOn, targetOn := node1.inputState, node2.inputState;
  }
}
