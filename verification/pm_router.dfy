/**
 * The back-stack router (navigation/PmRouter.kt): a stack of
 * (presentation model, description) entries held in one state cell, the
 * push and pop operations that replace the cell's value, and the step that
 * classifies each change of the cell as Set, Pop or Push.
 *
 * Kotlin's identity comparison `===` is Dafny's reference equality: entries
 * and presentation models are objects.
 */
module Navigation {

  import opened Wrappers
  import opened Lifecycle

  /** The router's description values (`Saveable`); the model does not look inside. */
  type Description = string

  /**
   * The part of a presentation model the router touches: its tag, its
   * parent and its lifecycle state, all assigned by the router.
   */
  class RoutedPm {
    var tag: string
    var parentPm: RoutedPm?
    var lifecycleState: LifecycleState

    /** A model as a factory returns it: untagged, without parent, not yet created. */
    constructor ()
      ensures tag == "" && parentPm == null && lifecycleState == Initialized
    {
      tag := "";
      parentPm := null;
      lifecycleState := Initialized;
    }

    method MoveLifecycleTo(target: LifecycleState)
      modifies this
      ensures lifecycleState == target
      ensures tag == old(tag) && parentPm == old(parentPm)
    {
      lifecycleState := target;
    }
  }

  class BackStackEntry {
    const pm: RoutedPm
    const description: Description

    constructor (pm: RoutedPm, description: Description)
      ensures this.pm == pm && this.description == description
    {
      this.pm := pm;
      this.description := description;
    }
  }

  /** The structural change between two consecutive stack values, for the UI's transition. */
  datatype PmStackChange =
    | Set(pm: RoutedPm)
    | Pop(pm: RoutedPm, previousPm: RoutedPm)
    | Push(pm: RoutedPm, previousPm: RoutedPm)

  function Last<T>(s: seq<T>): T
    requires s != []
  {
    s[|s| - 1]
  }

  /**
   * One step of the change stream: compares the previously seen stack with
   * the new one by the identity of their top entries. No change is emitted
   * for an empty new stack.
   */
  function Classify(oldStack: seq<BackStackEntry>, newStack: seq<BackStackEntry>): (r: Option<PmStackChange>)
    ensures r.None? <==> newStack == []
    ensures r.Some? ==> r.value.pm == Last(newStack).pm
    ensures r.Some? && !r.value.Set? ==> oldStack != [] && r.value.previousPm == Last(oldStack).pm
    ensures r.Some? && r.value.Set? <==> newStack != [] && (oldStack == [] || Last(oldStack) == Last(newStack))
    ensures r.Some? && r.value.Pop? <==>
      oldStack != [] && newStack != [] && Last(oldStack) != Last(newStack) && Last(newStack) in oldStack
    ensures r.Some? && r.value.Push? <==>
      oldStack != [] && newStack != [] && Last(newStack) !in oldStack
  {
    if newStack != [] && oldStack != [] then
      var oldTop, newTop := Last(oldStack), Last(newStack);
      if oldTop == newTop then Some(Set(newTop.pm))
      else if newTop in oldStack then Some(Pop(newTop.pm, oldTop.pm))
      else Some(Push(newTop.pm, oldTop.pm))
    else if newStack != [] then
      Some(Set(Last(newStack).pm))
    else
      None
  }

  /**
   * The changes the stream emits when the cell, first read as `initial`,
   * then takes the values `emissions` one after another.
   */
  function ChangeStream(initial: seq<BackStackEntry>, emissions: seq<seq<BackStackEntry>>): seq<PmStackChange>
    decreases |emissions|
  {
    if emissions == [] then []
    else
      var step := Classify(initial, emissions[0]);
      (if step.Some? then [step.value] else []) + ChangeStream(emissions[0], emissions[1..])
  }

  /** The number of non-empty stack values in `emissions`. */
  function NonEmptyCount(emissions: seq<seq<BackStackEntry>>): nat
  {
    if emissions == [] then 0
    else (if emissions[0] != [] then 1 else 0) + NonEmptyCount(emissions[1..])
  }

  /**
   * The collecting loop of the change stream: `oldPmStack` advances to
   * every new value, and a change is emitted for each non-empty one.
   */
  method CollectChanges(initial: seq<BackStackEntry>, emissions: seq<seq<BackStackEntry>>)
    returns (changes: seq<PmStackChange>, oldPmStack: seq<BackStackEntry>)
    ensures changes == ChangeStream(initial, emissions)
    ensures |changes| == NonEmptyCount(emissions)
    ensures oldPmStack == if emissions == [] then initial else Last(emissions)
  {
    changes, oldPmStack := [], initial;
    var i := 0;
    while i < |emissions|
      invariant 0 <= i <= |emissions|
      invariant changes + ChangeStream(oldPmStack, emissions[i..]) == ChangeStream(initial, emissions)
      invariant |changes| + NonEmptyCount(emissions[i..]) == NonEmptyCount(emissions)
      invariant oldPmStack == if i == 0 then initial else emissions[i - 1]
    {
      var newPmStack := emissions[i];
      assert emissions[i..][0] == newPmStack && emissions[i..][1..] == emissions[i + 1..];
      var change := Classify(oldPmStack, newPmStack);
      if change.Some? {
        changes := changes + [change.value];
      }
      oldPmStack := newPmStack;
      i := i + 1;
    }
    assert emissions[i..] == [];
  }

  /** Entries of a stack that are pairwise distinct and hold pairwise distinct models. */
  ghost predicate DistinctEntries(stack: seq<BackStackEntry>)
  {
    forall i, j :: 0 <= i < j < |stack| ==> stack[i].pm != stack[j].pm
  }

  class PmRouter {
    const hostPm: RoutedPm
    var pmStack: seq<BackStackEntry>

    /** Every model on the stack is a different object, and none is the host. */
    ghost predicate Valid()
      reads this
    {
      && DistinctEntries(pmStack)
      && (forall i :: 0 <= i < |pmStack| ==> pmStack[i].pm != hostPm)
    }

    /** The models of the top `n` entries. */
    ghost function TopPms(n: nat): set<RoutedPm>
      reads this
    {
      set i | 0 <= i < |pmStack| && |pmStack| - n <= i :: pmStack[i].pm
    }

    /** The router starts with an empty stack. */
    constructor (hostPm: RoutedPm)
      ensures Valid()
      ensures this.hostPm == hostPm && pmStack == []
    {
      this.hostPm := hostPm;
      pmStack := [];
    }

    /**
     * Moves the old top to CREATED, creates a model for `description`, tags
     * it, makes the host its parent, moves it to the host's lifecycle state
     * and appends it. The factory is modelled by allocation of a fresh model.
     */
    method Push(description: Description, pmTag: string)
      requires Valid()
      modifies this, TopPms(1)
      ensures Valid()
      ensures |pmStack| == |old(pmStack)| + 1 && pmStack[..|old(pmStack)|] == old(pmStack)
      ensures fresh(Last(pmStack)) && fresh(Last(pmStack).pm)
      ensures Last(pmStack).description == description
      ensures Last(pmStack).pm.tag == pmTag && Last(pmStack).pm.parentPm == hostPm
      ensures Last(pmStack).pm.lifecycleState == old(hostPm.lifecycleState)
      ensures old(pmStack) != [] ==> Last(old(pmStack)).pm.lifecycleState == Created
      ensures hostPm.lifecycleState == old(hostPm.lifecycleState)
      ensures forall e :: e in old(pmStack) ==> e.pm.tag == old(e.pm.tag) && e.pm.parentPm == old(e.pm.parentPm)
    {
      if pmStack != [] {
        Last(pmStack).pm.MoveLifecycleTo(Created);
      }
      var pm := new RoutedPm();
      pm.tag := pmTag;
      pm.parentPm := hostPm;
      pm.MoveLifecycleTo(hostPm.lifecycleState);
      var entry := new BackStackEntry(pm, description);
      pmStack := pmStack + [entry];
    }

    /**
     * Destroys the top model, drops the top entry and moves the new top (if
     * any) to the host's lifecycle state. On an empty stack `last()` throws
     * before anything changes: `noSuchElement` reports that.
     */
    method Pop() returns (noSuchElement: bool)
      requires Valid()
      modifies this, TopPms(2)
      ensures Valid()
      ensures noSuchElement <==> old(pmStack) == []
      ensures noSuchElement ==> pmStack == old(pmStack)
      ensures !noSuchElement ==> pmStack == old(pmStack)[..|old(pmStack)| - 1]
      ensures !noSuchElement ==> Last(old(pmStack)).pm.lifecycleState == Destroyed
      ensures !noSuchElement && pmStack != [] ==> Last(pmStack).pm.lifecycleState == old(hostPm.lifecycleState)
      ensures hostPm.lifecycleState == old(hostPm.lifecycleState)
      ensures forall e :: e in old(pmStack) ==> e.pm.tag == old(e.pm.tag) && e.pm.parentPm == old(e.pm.parentPm)
    {
      if pmStack == [] {
        return true;
      }
      noSuchElement := false;
      Last(pmStack).pm.MoveLifecycleTo(Destroyed);
      pmStack := pmStack[..|pmStack| - 1];
      if pmStack != [] {
        Last(pmStack).pm.MoveLifecycleTo(hostPm.lifecycleState);
      }
    }
  }

  /** Pushing an entry that is not yet on a non-empty stack is classified as Push(new, old top). */
  lemma ClassifyPush(stack: seq<BackStackEntry>, entry: BackStackEntry)
    requires stack != [] && entry !in stack
    ensures Classify(stack, stack + [entry]) == Some(Push(entry.pm, Last(stack).pm))
  {
  }

  /** Dropping the top of a stack of distinct entries is classified as Pop(new top, old top). */
  lemma ClassifyPop(stack: seq<BackStackEntry>)
    requires |stack| >= 2 && DistinctEntries(stack)
    ensures Classify(stack, stack[..|stack| - 1]) == Some(Pop(stack[|stack| - 2].pm, Last(stack).pm))
  {
  }

  /**
   * The state flow replays the current value first: a collector that starts
   * on a non-empty stack first emits Set(top).
   */
  lemma FirstEmissionIsSet(stack: seq<BackStackEntry>, later: seq<seq<BackStackEntry>>)
    requires stack != []
    ensures ChangeStream(stack, [stack] + later) == [Set(Last(stack).pm)] + ChangeStream(stack, later)
  {
  }

  /**
   * A push followed by a pop, seen from a collector started on a non-empty
   * stack: Set(top), then Push(new, top), then Pop(top, new).
   */
  lemma {:induction false} PushPopStream(stack: seq<BackStackEntry>, entry: BackStackEntry)
    requires stack != [] && entry !in stack
    ensures ChangeStream(stack, [stack, stack + [entry], stack])
      == [Set(Last(stack).pm), Push(entry.pm, Last(stack).pm), Pop(Last(stack).pm, entry.pm)]
  {
    var pushed := stack + [entry];
    ClassifyPush(stack, entry);
    assert Last(stack) in pushed;
    assert Classify(pushed, stack) == Some(Pop(Last(stack).pm, entry.pm));
    assert Classify(stack, stack) == Some(Set(Last(stack).pm));
    assert ChangeStream(pushed, [stack]) == [Pop(Last(stack).pm, entry.pm)] + ChangeStream(stack, []);
    assert ChangeStream(stack, [pushed, stack]) == [Push(entry.pm, Last(stack).pm)] + ChangeStream(pushed, [stack]) by {
      assert [pushed, stack][1..] == [stack];
    }
    assert [stack, pushed, stack][1..] == [pushed, stack];
  }

  /** Every emitted change names the top model of some non-empty stack value. */
  lemma {:induction false} ChangesNameTops(initial: seq<BackStackEntry>, emissions: seq<seq<BackStackEntry>>, k: nat)
    requires k < |ChangeStream(initial, emissions)|
    ensures exists i :: 0 <= i < |emissions| && emissions[i] != [] && ChangeStream(initial, emissions)[k].pm == Last(emissions[i]).pm
    decreases |emissions|
  {
    var step := Classify(initial, emissions[0]);
    var head := if step.Some? then [step.value] else [];
    var rest := ChangeStream(emissions[0], emissions[1..]);
    if k < |head| {
      assert emissions[0] != [];
    } else {
      ChangesNameTops(emissions[0], emissions[1..], k - |head|);
      var i :| 0 <= i < |emissions[1..]| && emissions[1..][i] != [] && rest[k - |head|].pm == Last(emissions[1..][i]).pm;
      assert emissions[i + 1] == emissions[1..][i];
    }
  }

  /**
   * Push then pop on a router: the stack is restored, and the pop step is
   * classified as Pop(original top, `pushed`), the model the push created
   * with the given tag and the host as parent; from an empty stack the
   * pop empties it again and no change is emitted.
   */
  method PushThenPop(router: PmRouter, description: Description, pmTag: string)
    returns (pushed: RoutedPm, change: Option<PmStackChange>)
    requires router.Valid()
    modifies router, router.TopPms(1)
    ensures router.Valid()
    ensures router.pmStack == old(router.pmStack)
    ensures fresh(pushed) && pushed.tag == pmTag && pushed.parentPm == router.hostPm
    ensures old(router.pmStack) == [] ==> change.None?
    ensures old(router.pmStack) != [] ==> change == Some(Pop(Last(old(router.pmStack)).pm, pushed))
  {
    var original := router.pmStack;
    router.Push(description, pmTag);
    var afterPush := router.pmStack;
    pushed := Last(afterPush).pm;
    assert afterPush == original + [Last(afterPush)];
    var failed := router.Pop();
    assert router.pmStack == original;
    if original != [] {
      assert Last(original) in afterPush;
    }
    change := Classify(afterPush, router.pmStack);
  }
}
