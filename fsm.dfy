/**
 * The generic finite-state machine (`States/FSM.cs`): a list of registered
 * states and a current state, possibly none. A state is a reference to an
 * object implementing `IState`; it is modelled by its runtime type (`kind`)
 * and an instance number, and two states are the same state only when both
 * agree. The hooks the machine calls on its states (`OnEnter`, `OnUpdate`,
 * `OnExit`) are recorded, in call order, in a ghost trace.
 */
module StateMachine {
  import opened Basics

  datatype StateRef = StateRef(kind: nat, instance: nat)

  datatype Hook = OnEnter(s: StateRef) | OnUpdate(s: StateRef) | OnExit(s: StateRef)

  /** Some registered state has runtime type `k`. */
  predicate HasKind(states: seq<StateRef>, k: nat)
  {
    exists i :: 0 <= i < |states| && states[i].kind == k
  }

  /** No two registered states have the same runtime type. */
  predicate KindsUnique(states: seq<StateRef>)
  {
    forall i, j :: 0 <= i < j < |states| ==> states[i].kind != states[j].kind
  }

  // ----- AddState as written: the type check is inverted -----

  /** `AddState` as written: appends only when a state of the same type is already there. */
  function AddStateAsWritten(states: seq<StateRef>, s: StateRef): (r: seq<StateRef>)
    ensures !HasKind(states, s.kind) ==> r == states
  {
    if HasKind(states, s.kind) then states + [s] else states
  }

  function AddAllAsWritten(states: seq<StateRef>, adds: seq<StateRef>): seq<StateRef>
    decreases |adds|
  {
    if adds == [] then states else AddAllAsWritten(AddStateAsWritten(states, adds[0]), adds[1..])
  }

  /** As written, a machine that starts with no states never registers any. */
  lemma {:induction false} AsWrittenNeverRegisters(adds: seq<StateRef>)
    ensures AddAllAsWritten([], adds) == []
    decreases |adds|
  {
    if adds != [] {
      assert !HasKind([], adds[0].kind);
      AsWrittenNeverRegisters(adds[1..]);
    }
  }

  // ----- AddState as its comment intends: add only a state of a new type -----

  function WithState(states: seq<StateRef>, s: StateRef): (r: seq<StateRef>)
    ensures KindsUnique(states) ==> KindsUnique(r)
    ensures HasKind(r, s.kind)
    ensures HasKind(states, s.kind) ==> r == states
    ensures !HasKind(states, s.kind) ==> r == states + [s]
  {
    if HasKind(states, s.kind) then states
    else
      var r := states + [s];
      assert r[|states|].kind == s.kind;
      r
  }

  function AddAll(states: seq<StateRef>, adds: seq<StateRef>): seq<StateRef>
    decreases |adds|
  {
    if adds == [] then states else AddAll(WithState(states, adds[0]), adds[1..])
  }

  /**
   * Registering any sequence of states from an empty machine keeps one
   * state per type and registers every type that was offered.
   */
  lemma {:induction false} AddAllRegistersEveryKind(states: seq<StateRef>, adds: seq<StateRef>)
    requires KindsUnique(states)
    ensures KindsUnique(AddAll(states, adds))
    ensures forall k :: HasKind(states, k) ==> HasKind(AddAll(states, adds), k)
    ensures forall i :: 0 <= i < |adds| ==> HasKind(AddAll(states, adds), adds[i].kind)
    decreases |adds|
  {
    if adds != [] {
      var next := WithState(states, adds[0]);
      assert forall k :: HasKind(states, k) ==> HasKind(next, k) by {
        forall k | HasKind(states, k) ensures HasKind(next, k) {
          var i :| 0 <= i < |states| && states[i].kind == k;
          assert next[i] == states[i];
        }
      }
      AddAllRegistersEveryKind(next, adds[1..]);
      forall i | 0 <= i < |adds|
        ensures HasKind(AddAll(states, adds), adds[i].kind)
      {
        if i > 0 {
          assert adds[i] == adds[1..][i - 1];
        }
      }
    }
  }

  // ----- ChangeStateTo -----

  /**
   * `ChangeStateTo(next)` from `cur`: the new current state and the hooks
   * called, in order. `None` is the null reference.
   */
  function Switch(cur: Option<StateRef>, next: Option<StateRef>): (r: (Option<StateRef>, seq<Hook>))
    // no hook at all exactly when asked for the current state
    ensures r.1 == [] <==> next == cur
    // asking for the current state changes nothing
    ensures next == cur ==> r == (cur, [])
    // the old state is exited first, then the new one entered
    ensures next != cur && cur.Some? ==> r.1[0] == OnExit(cur.value)
    ensures next != cur && next.Some? ==> r.1[|r.1| - 1] == OnEnter(next.value) && r.0 == next
    // a null target does not replace the current state
    ensures next.None? ==> r.0 == cur
    // exactly one exit per current state and one enter per non-null target, nothing else
    ensures next != cur ==> |r.1| == (if cur.Some? then 1 else 0) + (if next.Some? then 1 else 0)
  {
    if next == cur then (cur, [])
    else
      var exits := if cur.Some? then [OnExit(cur.value)] else [];
      if next.Some? then (next, exits + [OnEnter(next.value)]) else (cur, exits)
  }

  /** As written, asking twice for the null state exits the same state twice. */
  lemma NullTargetExitsAgain(s: StateRef)
    ensures var first := Switch(Some(s), None);
      first.1 == [OnExit(s)] && Switch(first.0, None).1 == [OnExit(s)]
  {
  }

  class Fsm {
    var states: seq<StateRef>
    var current: Option<StateRef>
    ghost var trace: seq<Hook>

    constructor ()
      ensures states == [] && current == None && trace == []
    {
      states := [];
      current := None;
      trace := [];
    }

    /** Registers `s` unless a state of its type is registered already. */
    method AddState(s: StateRef)
      modifies this`states
      ensures states == WithState(old(states), s)
    {
      if !HasKind(states, s.kind) {
        states := states + [s];
      }
    }

    method ChangeStateTo(next: Option<StateRef>)
      modifies this`current, this`trace
      ensures current == Switch(old(current), next).0
      ensures trace == old(trace) + Switch(old(current), next).1
    {
      if next == current {
        return;
      }
      if current.Some? {
        trace := trace + [OnExit(current.value)];
      }
      if next.Some? {
        current := next;
        trace := trace + [OnEnter(current.value)];
      }
    }

    /** Calls `OnUpdate` on the current state, if there is one. */
    method Update()
      modifies this`trace
      ensures current.Some? ==> trace == old(trace) + [OnUpdate(current.value)]
      ensures current.None? ==> trace == old(trace)
    {
      if current.Some? {
        trace := trace + [OnUpdate(current.value)];
      }
    }
  }
}
