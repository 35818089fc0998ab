/**
 * `Nodeable`: a ScriptCanvas runtime node with a table of execution-out functors,
 * one per out slot, and a weak pointer to the execution state it runs in.
 *
 * A functor is modelled by its identity: the empty functor, the shared no-op, or
 * some bound callable. Calling a functor is left out; `CallOut` returns the
 * functor it would call. The hook `OnInitializeExecutionState` is not part of
 * this model.
 */
module Nodeable {
  import opened Wrappers

  datatype FunctorOut = Empty | NoOp | Bound(id: nat)

  /** An execution state, by identity; a pointer to it is never null. */
  type ExecutionStateId = nat

  /** Every slot holds a callable functor. */
  predicate NoEmptySlots(outs: seq<FunctorOut>)
  {
    forall i :: 0 <= i < |outs| ==> !outs[i].Empty?
  }

  /** `m_outs.resize(count, m_noOpFunctor)`. */
  function Resized(outs: seq<FunctorOut>, count: nat): (r: seq<FunctorOut>)
    ensures |r| == count
    ensures forall i :: 0 <= i < count && i < |outs| ==> r[i] == outs[i]
    ensures forall i :: |outs| <= i < count ==> r[i] == NoOp
  {
    if count <= |outs| then outs[..count] else outs + seq(count - |outs|, _ => NoOp)
  }

  /** `GetExecutionOutChecked` on a table: the no-op for an index out of range or an empty slot. */
  function CheckedOut(outs: seq<FunctorOut>, index: nat): (r: FunctorOut)
    ensures !r.Empty?
    ensures index < |outs| && !outs[index].Empty? ==> r == outs[index]
    ensures index >= |outs| || outs[index].Empty? ==> r == NoOp
  {
    if index >= |outs| || outs[index].Empty? then NoOp else outs[index]
  }

  class Nodeable {
    var outs: seq<FunctorOut>
    var executionState: Option<ExecutionStateId>

    predicate Valid()
      reads this
    {
      NoEmptySlots(outs)
    }

    /** `Nodeable()`: no outs, no execution state. */
    constructor ()
      ensures Valid() && outs == [] && executionState == None
    {
      outs := [];
      executionState := None;
    }

    /** `Nodeable(executionState)`. */
    constructor WithState(state: ExecutionStateId)
      ensures Valid() && outs == [] && executionState == Some(state)
    {
      outs := [];
      executionState := Some(state);
    }

    /** `GetExecutionOut`: asserts the index is in range and the slot is not empty. */
    function GetExecutionOut(index: nat): (r: FunctorOut)
      requires index < |outs| && !outs[index].Empty?
      reads this
      ensures !r.Empty? && r == CheckedOut(outs, index)
    {
      outs[index]
    }

    /** `GetExecutionOutChecked`. */
    function GetExecutionOutChecked(index: nat): (r: FunctorOut)
      reads this
      ensures !r.Empty?
      ensures index < |outs| && !outs[index].Empty? ==> r == outs[index]
      ensures index >= |outs| || outs[index].Empty? ==> r == NoOp
    {
      CheckedOut(outs, index)
    }

    /** `InitializeExecutionOuts(count)`. */
    method InitializeExecutionOuts(count: nat)
      requires Valid()
      modifies this
      ensures Valid()
      ensures outs == Resized(old(outs), count) && executionState == old(executionState)
    {
      outs := Resized(outs, count);
    }

    /** `InitializeExecutionState`: asserts that no state was set before. */
    method InitializeExecutionState(state: ExecutionStateId)
      requires executionState.None?
      modifies this
      ensures executionState == Some(state) && outs == old(outs)
    {
      executionState := Some(state);
    }

    /** `SetExecutionOut`: asserts the functor is not empty; the index is not checked. */
    method SetExecutionOut(index: nat, out: FunctorOut)
      requires Valid() && !out.Empty? && index < |outs|
      modifies this
      ensures Valid()
      ensures outs == old(outs)[index := out] && executionState == old(executionState)
    {
      outs := outs[index := out];
    }

    /** `SetExecutionOutChecked`: an empty functor is reported as an error and changes nothing. */
    method SetExecutionOutChecked(index: nat, out: FunctorOut) returns (error: bool)
      requires Valid() && (out.Empty? || index < |outs|)
      modifies this
      ensures Valid()
      ensures error <==> out.Empty?
      ensures error ==> outs == old(outs)
      ensures !error ==> outs == old(outs)[index := out]
      ensures executionState == old(executionState)
    {
      if out.Empty? {
        return true;
      }
      SetExecutionOut(index, out);
      return false;
    }

    /**
     * `CallOut`: the functor called for `index`. Outside release builds it goes
     * through the checked getter; in release builds through the asserting one.
     */
    method CallOut(index: nat, release: bool) returns (called: FunctorOut)
      requires release ==> index < |outs| && !outs[index].Empty?
      ensures !called.Empty?
      ensures called == CheckedOut(outs, index)
    {
      if !release {
        called := GetExecutionOutChecked(index);
      } else {
        called := GetExecutionOut(index);
      }
    }
  }

  // ---------------------------------------------------------------------------
  // Properties
  // ---------------------------------------------------------------------------

  /** Resizing never introduces an empty slot. */
  lemma ResizedKeepsNoEmptySlots(outs: seq<FunctorOut>, count: nat)
    requires NoEmptySlots(outs)
    ensures NoEmptySlots(Resized(outs, count))
  {
  }

  /** Resizing to the same count twice is resizing once. */
  lemma ResizedIdempotent(outs: seq<FunctorOut>, count: nat)
    ensures Resized(Resized(outs, count), count) == Resized(outs, count)
  {
  }

  /** Growing then shrinking back restores the table. */
  lemma GrowThenShrink(outs: seq<FunctorOut>, count: nat)
    requires count >= |outs|
    ensures Resized(Resized(outs, count), |outs|) == outs
  {
    assert Resized(Resized(outs, count), |outs|) == Resized(outs, count)[..|outs|];
  }

  /** Wherever the asserting getter is defined, the checked getter agrees with it. */
  lemma CheckedAgreesWithUnchecked(outs: seq<FunctorOut>, index: nat)
    requires index < |outs| && !outs[index].Empty?
    ensures CheckedOut(outs, index) == outs[index]
  {
  }

  /** After a checked set of a callable functor, the checked getter returns it. */
  lemma SetThenGetChecked(outs: seq<FunctorOut>, index: nat, out: FunctorOut)
    requires index < |outs| && !out.Empty?
    ensures CheckedOut(outs[index := out], index) == out
  {
  }

  /** Slots added by a resize call the no-op. */
  lemma NewSlotsCallNoOp(outs: seq<FunctorOut>, count: nat, index: nat)
    requires |outs| <= index
    ensures CheckedOut(Resized(outs, count), index) == NoOp
  {
  }
}
