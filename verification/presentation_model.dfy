/**
 * A node of the presentation-model tree (PresentationModel.kt): its tag,
 * parent, lifecycle state, saveable states, attached children and optional
 * navigator; the back-handling rules; and the walk that saves the subtree
 * into a snapshot.
 *
 * The navigator (a separate class in the source, not part of this model) is
 * represented by the back stack it holds: `navigator` is None until
 * `Navigator` creates it, and its push and pop append and drop entries.
 * The factory is modelled by the base-class constructor: a created child is
 * a fresh node built from its parameters.
 */
module PresentationModels {

  import opened Wrappers
  import opened Lifecycle
  import opened Snapshot

  /** A mutable state cell (`State<T>`); its `value` is read and written by the node's owner. */
  class StateCell {
    var value: Value

    constructor (value: Value)
      ensures this.value == value
    {
      this.value := value;
    }
  }

  /** A registered saveable state: the cell and the runtime type the codec needs. */
  datatype SaveableEntry = SaveableEntry(state: StateCell, kType: KType)

  /** What the factory passes to a new node. */
  datatype PmParams = PmParams(
    tag: string,
    parent: PresentationModel?,
    state: Option<PmState>,
    description: Description,
    stateSaver: StateSaver)

  /** A node's tag: the snapshot's tag when it is restored from one, otherwise the tag it was given. */
  function ChooseTag(state: Option<PmState>, tag: string): (t: string)
    ensures state.Some? ==> t == state.value.tag
    ensures state.None? ==> t == tag
  {
    match state
    case Some(s) => s.tag
    case None => tag
  }

  /** The snapshot a child created under `tag` is restored from: the parent snapshot's child of that tag. */
  function ChildSnapshot(state: Option<PmState>, tag: string): (child: Option<PmState>)
    ensures child.Some? <==> state.Some? && tag in state.value.children
    ensures child.Some? ==> child.value == state.value.children[tag]
  {
    if state.Some? && tag in state.value.children then Some(state.value.children[tag]) else None
  }

  /**
   * The first value of a saveable state: the decoded saved value when the
   * snapshot holds the key, the initial value otherwise.
   */
  function SavedValue(state: Option<PmState>, saver: StateSaver, kType: KType, key: string, initialValue: Value): (v: Value)
    ensures state.Some? && key in state.value.states ==> v == saver.restoreState(kType, state.value.states[key])
    ensures state.None? || key !in state.value.states ==> v == initialValue
  {
    if state.Some? && key in state.value.states then saver.restoreState(kType, state.value.states[key])
    else initialValue
  }

  /** The back stack a navigator is restored with: the snapshot's, or none. */
  function SavedBackStack(state: Option<PmState>): seq<PmState>
  {
    if state.Some? then state.value.backstack else []
  }

  /** A navigator after its pop: the top entry dropped. */
  function Popped(navigator: Option<seq<PresentationModel>>): Option<seq<PresentationModel>>
  {
    if navigator.Some? && navigator.value != [] then Some(navigator.value[..|navigator.value| - 1])
    else navigator
  }

  class PresentationModel {
    const pmState: Option<PmState>
    const stateSaver: StateSaver
    const description: Description
    const tag: string
    const parentPm: PresentationModel?
    /** The node's distance from the root of its parent chain. */
    ghost const depth: nat

    var lifecycle: LifecycleState
    var navigator: Option<seq<PresentationModel>>
    var saveableStates: map<string, SaveableEntry>
    var children: map<string, PresentationModel>
    ghost var Repr: set<object>
    /** The subtrees this node owns: its children and entries, and any it held before. */
    ghost var Subs: set<PresentationModel>

    /** Every parent is strictly nearer the root: the parent chain is finite. */
    ghost predicate ParentChainOk()
      decreases depth
    {
      parentPm != null ==> parentPm.depth < depth && parentPm.ParentChainOk()
    }

    /** The navigator's back stack; empty when there is no navigator. */
    function Stack(): seq<PresentationModel>
      reads this
    {
      if navigator.Some? then navigator.value else []
    }

    /**
     * The tree invariant: this node owns its state cells, its attached
     * children and its navigator's entries; different subtrees share
     * nothing; and a navigator is never empty.
     */
    ghost predicate Valid()
      reads this, Repr
      decreases Repr
    {
      && this in Repr
      && ParentChainOk()
      && (forall k :: k in saveableStates ==> saveableStates[k].state in Repr)
      && (navigator.Some? ==> |navigator.value| >= 1)
      && (forall k :: k in children ==> children[k] in Subs)
      && (navigator.Some? ==> forall i :: 0 <= i < |navigator.value| ==> navigator.value[i] in Subs)
      && (forall n :: n in Subs ==>
            && n in Repr && n.Repr <= Repr && this !in n.Repr
            && n.parentPm == this && n.Valid())
      && (forall m, n :: m in Subs && n in Subs && m != n ==> m.Repr !! n.Repr)
      && (forall k, n :: k in saveableStates && n in Subs ==> saveableStates[k].state !in n.Repr)
    }

    constructor (params: PmParams)
      requires params.parent != null ==> params.parent.ParentChainOk()
      ensures Valid() && Repr == {this}
      ensures tag == ChooseTag(params.state, params.tag)
      ensures parentPm == params.parent && pmState == params.state
      ensures description == params.description && stateSaver == params.stateSaver
      ensures lifecycle == Initialized && navigator == None
      ensures saveableStates == map[] && children == map[]
    {
      pmState := params.state;
      stateSaver := params.stateSaver;
      description := params.description;
      tag := ChooseTag(params.state, params.tag);
      parentPm := params.parent;
      depth := if params.parent == null then 0 else params.parent.depth + 1;
      lifecycle := Initialized;
      navigator := None;
      saveableStates := map[];
      children := map[];
      Repr := {this};
      Subs := {};
    }

    /** `lifecycle.moveTo(target)`: records the target state. */
    method MoveLifecycleTo(target: LifecycleState)
      requires Valid()
      modifies this
      ensures Valid() && Repr == old(Repr)
      ensures lifecycle == target
      ensures navigator == old(navigator) && children == old(children) && saveableStates == old(saveableStates)
    {
      lifecycle := target;
    }

    /**
     * Creates a child with this node as parent, restored from the child of
     * this node's snapshot saved under `tag`.
     */
    method Child(description: Description, tag: string) returns (pm: PresentationModel)
      requires Valid()
      ensures fresh(pm) && pm.Valid() && pm.Repr == {pm}
      ensures pm.parentPm == this && pm.description == description && pm.stateSaver == stateSaver
      ensures pm.pmState == ChildSnapshot(pmState, tag)
      ensures pm.tag == ChooseTag(ChildSnapshot(pmState, tag), tag)
      ensures pm.lifecycle == Initialized && pm.navigator == None
      ensures pm.children == map[] && pm.saveableStates == map[]
    {
      pm := new PresentationModel(PmParams(tag, this, ChildSnapshot(pmState, tag), description, stateSaver));
    }

    /**
     * Creates a child, moves it to this node's lifecycle state and attaches
     * it under `tag`, replacing any child attached under that tag before.
     */
    method AttachedChild(description: Description, tag: string) returns (pm: PresentationModel)
      requires Valid()
      modifies this
      ensures Valid() && Repr == old(Repr) + {pm}
      ensures fresh(pm) && pm.parentPm == this && pm.description == description
      ensures pm.tag == ChooseTag(ChildSnapshot(pmState, tag), tag)
      ensures pm.pmState == ChildSnapshot(pmState, tag) && pm.stateSaver == stateSaver
      ensures pm.lifecycle == lifecycle
      ensures children == old(children)[tag := pm]
      ensures navigator == old(navigator) && saveableStates == old(saveableStates) && lifecycle == old(lifecycle)
    {
      pm := Child(description, tag);
      pm.MoveLifecycleTo(lifecycle);
      Attach(tag, pm);
    }

    /** `children[tag] = pm` for a new single-node tree `pm`. */
    method Attach(tag: string, pm: PresentationModel)
      requires Valid()
      requires pm !in Repr && pm.Repr == {pm} && pm.Valid() && pm.parentPm == this
      modifies this
      ensures Valid() && Repr == old(Repr) + {pm}
      ensures children == old(children)[tag := pm]
      ensures navigator == old(navigator) && saveableStates == old(saveableStates) && lifecycle == old(lifecycle)
    {
      OutsideDisjoint({pm});
      children, Repr, Subs := children[tag := pm], Repr + {pm}, Subs + {pm};
    }

    /** Single-node trees outside this tree share nothing with any subtree. */
    lemma OutsideDisjoint(added: set<PresentationModel>)
      requires Valid()
      requires forall pm :: pm in added ==> pm !in Repr && pm.Repr == {pm}
      ensures forall n, pm :: n in Subs && pm in added ==> n.Repr !! pm.Repr && n != pm
    {
    }

    /**
     * Registers a saveable state cell under `key`, holding the saved value
     * when the snapshot has one and `initialValue` otherwise. A later
     * registration under the same key replaces the earlier one.
     */
    method SaveableState(initialValue: Value, kType: KType, key: string) returns (state: StateCell)
      requires Valid()
      modifies this
      ensures Valid() && Repr == old(Repr) + {state}
      ensures fresh(state)
      ensures state.value == SavedValue(pmState, stateSaver, kType, key, initialValue)
      ensures saveableStates == old(saveableStates)[key := SaveableEntry(state, kType)]
      ensures navigator == old(navigator) && children == old(children) && lifecycle == old(lifecycle)
    {
      state := new StateCell(SavedValue(pmState, stateSaver, kType, key, initialValue));
      saveableStates := saveableStates[key := SaveableEntry(state, kType)];
      Repr := Repr + {state};
    }

    /** The nodes of `stack` are restored, in order, from the snapshots `saved`. */
    ghost predicate RestoredFrom(stack: seq<PresentationModel>, saved: seq<PmState>)
    {
      && |stack| == |saved|
      && forall i :: 0 <= i < |stack| ==>
           && stack[i].tag == saved[i].tag
           && stack[i].description == saved[i].description
           && stack[i].pmState == Some(saved[i])
           && stack[i].parentPm == this
           && stack[i].stateSaver == stateSaver
    }

    /**
     * Returns the existing navigator unchanged; otherwise creates one with
     * the back stack restored from the snapshot and, when that is empty,
     * pushes one child for `initialDescription` (tagged `initialTag`). The
     * restored nodes are created in either case.
     */
    method Navigator(initialDescription: Description, initialTag: string)
      requires Valid()
      modifies this
      ensures Valid() && old(Repr) <= Repr && fresh(Repr - old(Repr))
      ensures old(navigator).Some? ==> navigator == old(navigator)
      ensures navigator.Some? && |navigator.value| >= 1
      ensures old(navigator).None? ==> forall i :: 0 <= i < |navigator.value| ==> fresh(navigator.value[i])
      ensures old(navigator).None? && SavedBackStack(pmState) != [] ==>
        RestoredFrom(navigator.value, SavedBackStack(pmState))
      ensures old(navigator).None? && SavedBackStack(pmState) == [] ==>
        && |navigator.value| == 1
        && fresh(navigator.value[0])
        && navigator.value[0].description == initialDescription
        && navigator.value[0].parentPm == this
        && navigator.value[0].tag == ChooseTag(ChildSnapshot(pmState, initialTag), initialTag)
        && navigator.value[0].pmState == ChildSnapshot(pmState, initialTag)
        && navigator.value[0].stateSaver == stateSaver
      ensures children == old(children) && saveableStates == old(saveableStates) && lifecycle == old(lifecycle)
    {
      var restored := RestoredNodes(SavedBackStack(pmState));
      if navigator.None? {
        var stack := restored;
        if stack == [] {
          var pm := Child(initialDescription, initialTag);
          stack := [pm];
        }
        SetBackStack(stack);
      }
    }

    /** Creates one child per snapshot of `saved`, in order, each restored from its snapshot. */
    method RestoredNodes(saved: seq<PmState>) returns (restored: seq<PresentationModel>)
      requires ParentChainOk()
      ensures RestoredFrom(restored, saved)
      ensures forall j :: 0 <= j < |restored| ==>
        fresh(restored[j]) && restored[j].Valid() && restored[j].Repr == {restored[j]}
      ensures forall j, k :: 0 <= j < k < |restored| ==> restored[j] != restored[k]
    {
      restored := [];
      for i := 0 to |saved|
        invariant RestoredFrom(restored, saved[..i])
        invariant forall j :: 0 <= j < i ==>
          fresh(restored[j]) && restored[j].Valid() && restored[j].Repr == {restored[j]}
        invariant forall j, k :: 0 <= j < k < i ==> restored[j] != restored[k]
      {
        var pm := new PresentationModel(PmParams(saved[i].tag, this, Some(saved[i]), saved[i].description, stateSaver));
        restored := restored + [pm];
      }
      assert saved[..|saved|] == saved;
    }

    /** Installs a navigator holding `stack`, a sequence of new single-node trees. */
    method SetBackStack(stack: seq<PresentationModel>)
      requires Valid() && navigator.None? && |stack| >= 1
      requires forall n :: n in stack ==> n !in Repr && n.Repr == {n} && n.Valid() && n.parentPm == this
      modifies this
      ensures Valid() && Repr == old(Repr) + set n | n in stack
      ensures navigator == Some(stack)
      ensures children == old(children) && saveableStates == old(saveableStates) && lifecycle == old(lifecycle)
    {
      ghost var added: set<PresentationModel> := set n | n in stack;
      OutsideDisjoint(added);
      navigator, Repr, Subs := Some(stack), Repr + added, Subs + added;
    }

    /** The nodes up the parent chain, this one included. */
    ghost function Ancestors(): set<PresentationModel>
      requires ParentChainOk()
      decreases depth
    {
      {this} + (if parentPm == null then {} else parentPm.Ancestors())
    }

    lemma {:induction false} AncestorsNearer()
      requires ParentChainOk()
      ensures forall a :: a in Ancestors() ==> a.depth <= depth
      decreases depth
    {
      if parentPm != null {
        parentPm.AncestorsNearer();
      }
    }

    /** `back()` pops the navigator of `a` directly: it exists and holds more than one entry. */
    static ghost predicate CanPop(a: PresentationModel)
      reads a
    {
      a.navigator.Some? && |a.navigator.value| > 1
    }

    /** The node whose navigator `back()` pops: the first up the parent chain with more than one entry. */
    ghost function BackHandler(): (h: PresentationModel?)
      requires ParentChainOk()
      reads Ancestors()
      decreases depth
      ensures h != null ==> h in Ancestors() && h.navigator.Some? && |h.navigator.value| > 1
      ensures h == null <==> forall a :: a in Ancestors() ==> !CanPop(a)
      ensures h != null ==> forall a :: a in Ancestors() && a.depth > h.depth ==> !CanPop(a)
    {
      AncestorsNearer();
      if CanPop(this) then this
      else if parentPm == null then null
      else
        parentPm.AncestorsNearer();
        parentPm.BackHandler()
    }

    /**
     * Pops this node's navigator when it has more than one entry; otherwise
     * delegates to the parent; at the root nothing changes.
     */
    method Back()
      requires ParentChainOk()
      modifies Ancestors()`navigator
      decreases depth
      ensures forall a :: a in Ancestors() && old(allocated(a)) ==>
        a.navigator == if a == old(BackHandler()) then Popped(old(a.navigator)) else old(a.navigator)
    {
      if navigator.Some? && |navigator.value| > 1 {
        navigator := Popped(navigator);
        AncestorsNearer();
        if parentPm != null {
          parentPm.AncestorsNearer();
        }
      } else if parentPm != null {
        parentPm.AncestorsNearer();
        parentPm.Back();
      }
    }

    /** The top entry of the navigator handles a system back. */
    ghost predicate NestedHandles()
      requires Valid()
      reads Repr
      decreases Repr, 0
    {
      Stack() != [] && Stack()[|Stack()| - 1].CanHandleBack()
    }

    /** The footprint of the navigator's top entry: all a system back may change below this node. */
    ghost function TopRepr(): set<object>
      reads this, if Stack() != [] then {Stack()[|Stack()| - 1]} else {}
    {
      if Stack() != [] then Stack()[|Stack()| - 1].Repr else {}
    }

    /** A system back sent to this node is handled in its chain of top entries. */
    ghost predicate CanHandleBack()
      requires Valid()
      reads Repr
      decreases Repr, 1
    {
      navigator.Some? && (NestedHandles() || |navigator.value| > 1)
    }

    /**
     * Offers a system back to the navigator's top entry first; when that
     * does not handle it, pops when more than one entry is left. Reports
     * whether the back was handled.
     */
    method HandleSystemBack() returns (handled: bool)
      requires Valid()
      modifies this, TopRepr()
      decreases Repr, 1
      ensures Valid() && Repr == old(Repr)
      ensures handled == old(CanHandleBack())
      ensures old(navigator).None? ==> !handled
      ensures navigator.Some? == old(navigator).Some?
      ensures navigator.Some? ==> |navigator.value| >= 1
      ensures navigator ==
        if old(navigator.Some? && !NestedHandles() && |navigator.value| > 1) then Popped(old(navigator))
        else old(navigator)
      ensures children == old(children) && saveableStates == old(saveableStates) && lifecycle == old(lifecycle)
    {
      if navigator.Some? {
        var handledByNestedPm := NestedHandleSystemBack();
        if !handledByNestedPm {
          if |navigator.value| > 1 {
            PopNavigator();
            return true;
          }
        } else {
          return true;
        }
        return false;
      } else {
        return false;
      }
    }

    /** Offers a system back to the top entry, if any; this node itself is unchanged. */
    method NestedHandleSystemBack() returns (handled: bool)
      requires Valid()
      modifies TopRepr()
      decreases Repr, 0
      ensures Valid() && unchanged(this)
      ensures handled == old(NestedHandles())
    {
      var stack := Stack();
      handled := false;
      if stack != [] {
        var top := stack[|stack| - 1];
        handled := top.HandleSystemBack();
      }
    }

    /** The navigator's pop: drops the top entry. */
    method PopNavigator()
      requires Valid() && navigator.Some? && |navigator.value| > 1
      modifies this
      ensures Valid() && Repr == old(Repr)
      ensures navigator == Popped(old(navigator))
      ensures children == old(children) && saveableStates == old(saveableStates) && lifecycle == old(lifecycle)
    {
      navigator := Popped(navigator);
    }

    /** The snapshots of the navigator's first `n` entries, in order. */
    function SaveBackStack(n: nat): (r: seq<PmState>)
      requires Valid() && n <= |Stack()|
      reads Repr
      decreases Repr, 0, n
      ensures |r| == n
      ensures forall i :: 0 <= i < n ==> r[i] == Stack()[i].SaveState()
    {
      if n == 0 then [] else SaveBackStack(n - 1) + [Stack()[n - 1].SaveState()]
    }

    /**
     * The snapshot of this subtree: tag and description; the back stack's
     * snapshots in order (none without a navigator); the attached children's
     * snapshots by tag; the saveable states encoded by key.
     */
    function SaveState(): (s: PmState)
      requires Valid()
      reads Repr
      decreases Repr, 1, 0
      ensures s.tag == tag && s.description == description
      ensures |s.backstack| == |Stack()|
      ensures forall i :: 0 <= i < |s.backstack| ==> s.backstack[i] == Stack()[i].SaveState()
      ensures s.children.Keys == children.Keys
      ensures forall k :: k in s.children ==> s.children[k] == children[k].SaveState()
      ensures s.states.Keys == saveableStates.Keys
      ensures forall k :: k in s.states ==>
        s.states[k] == stateSaver.saveState(saveableStates[k].kType, saveableStates[k].state.value)
    {
      PmState(
        tag,
        description,
        SaveBackStack(|Stack()|),
        map k | k in children :: children[k].SaveState(),
        map k | k in saveableStates :: stateSaver.saveState(saveableStates[k].kType, saveableStates[k].state.value))
    }
  }

  /** The codec decodes what it encodes for values of type `kType`. */
  ghost predicate RoundTrips(saver: StateSaver, kType: KType)
  {
    forall v :: saver.restoreState(kType, saver.saveState(kType, v)) == v
  }

  /**
   * Save then restore, for a saveable state: a node restored from `pm`'s
   * snapshot that registers the same key gets the value `pm`'s cell held,
   * whatever initial value it passes, provided the codec round-trips.
   */
  lemma SavedValueRestored(pm: PresentationModel, key: string, initialValue: Value)
    requires pm.Valid() && key in pm.saveableStates
    requires RoundTrips(pm.stateSaver, pm.saveableStates[key].kType)
    ensures SavedValue(Some(pm.SaveState()), pm.stateSaver, pm.saveableStates[key].kType, key, initialValue)
      == pm.saveableStates[key].state.value
  {
  }

  /**
   * Save then restore, for a child: the child a node restored from `pm`'s
   * snapshot creates under `key` is restored from the snapshot of the child
   * `pm` attached under `key`, and so carries that child's tag.
   */
  lemma ChildRestored(pm: PresentationModel, key: string)
    requires pm.Valid() && key in pm.children
    ensures ChildSnapshot(Some(pm.SaveState()), key) == Some(pm.children[key].SaveState())
    ensures ChooseTag(ChildSnapshot(Some(pm.SaveState()), key), key) == pm.children[key].tag
  {
  }

  /**
   * Save then restore, for a back stack: the snapshots a restored navigator
   * is rebuilt from carry the tags and descriptions of `pm`'s entries, in
   * order; without a navigator there are none.
   */
  lemma BackStackRestored(pm: PresentationModel)
    requires pm.Valid()
    ensures |SavedBackStack(Some(pm.SaveState()))| == |pm.Stack()|
    ensures forall i :: 0 <= i < |pm.Stack()| ==>
      && SavedBackStack(Some(pm.SaveState()))[i].tag == pm.Stack()[i].tag
      && SavedBackStack(Some(pm.SaveState()))[i].description == pm.Stack()[i].description
  {
  }
}
