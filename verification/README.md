# Premo presentation models and back-stack router, in Dafny

Premo is a Kotlin Multiplatform framework that organises an application's
presentation logic as a tree of presentation models (PMs). This project
models two parts of its core.

- **The PM tree node** (`PresentationModel`, in `presentation_model.dfy`).
  A node has:
  - a tag, taken from its saved snapshot when it has one;
  - a parent, and a lifecycle state;
  - saveable state cells, registered by key and restored from the snapshot;
  - attached children, stored by tag;
  - an optional navigator. `Navigator(...)` creates it and rebuilds its back
    stack from the snapshot, pushing one child when that stack is empty.

  Two back rules are modelled:
  - `back()` pops the nearest navigator up the parent chain that holds more
    than one entry;
  - `handleSystemBack()` offers the back to the navigator's top entry first,
    recursively, and pops only when that entry does not handle it.

  `saveState()` walks the subtree into a snapshot tree (`PmState`). Save and
  restore are connected by lemmas: what a node restored from a snapshot
  finds under a key, a tag or a back-stack position is what the saved node
  held there.

  The node is a class with a `Valid()` tree invariant:
  - a ghost `Repr` holds the node's footprint;
  - children and navigator entries are owned by the node, and their
    subtrees do not share anything;
  - a node's state cells lie outside every subtree;
  - a navigator is never empty.

- **The back-stack router** (`PmRouter`, in `pm_router.dfy`). It holds a
  stack of `(pm, description)` entries in one state cell.
  - `push` appends a new tagged model whose parent is the host. The old top
    moves to CREATED, and the new model takes the host's lifecycle state.
  - `pop` destroys the top, drops it, and moves the new top to the host's
    state.
  - A change stream classifies each new value of the stack as `Set`, `Pop`
    or `Push`, by comparing its top entry with the previous value's by
    identity.

  Kotlin's `===` is Dafny reference equality: entries and models are
  objects, so freshly created ones are distinct.

The two source files come from diverging versions of the API. In
`PmRouter`, the router assigns a model's tag and parent and calls
`moveLifecycleTo`. In `PresentationModel`, the tag and parent are
constructor values and the lifecycle is moved with `lifecycle.moveTo`.
They are modelled separately: the router works on `RoutedPm`, a minimal
model holding a tag, a parent and a lifecycle state.

Supporting files:
- `wrappers.dfy`: `Option`.
- `lifecycle.dfy`: the four lifecycle states.
- `snapshot.dfy`: the snapshot tree `PmState` and the `StateSaver` codec,
  a pair of functions the model does not look inside.

## Model

| member | source | states |
|---|---|---|
| `PresentationModels.ChooseTag` | premo/src/commonMain/kotlin/me/dmdev/premo/PresentationModel.kt:50 | A node's tag is the snapshot's tag when a snapshot is given, and the tag passed in otherwise. |
| `PresentationModels.ChildSnapshot` | premo/src/commonMain/kotlin/me/dmdev/premo/PresentationModel.kt:137 | A child's snapshot exists exactly when the parent has a snapshot with a child under that tag, and it is that child. |
| `PresentationModels.SavedValue` | premo/src/commonMain/kotlin/me/dmdev/premo/PresentationModel.kt:173-178 | A saveable state starts from the decoded saved value when the snapshot holds its key, and from the initial value otherwise (no snapshot, or key absent). |
| `PresentationModels.PresentationModel.constructor` | premo/src/commonMain/kotlin/me/dmdev/premo/PresentationModel.kt:45-65 | A new node is a valid one-node tree: tag chosen as above, parent and snapshot from the parameters, no navigator, no children, no saveable states. |
| `PresentationModels.PresentationModel.Child` | premo/src/commonMain/kotlin/me/dmdev/premo/PresentationModel.kt:130-144 | The child is a fresh valid node whose parent is this node, restored from the parent snapshot's child under its tag, with this node's codec. |
| `PresentationModels.PresentationModel.AttachedChild` | premo/src/commonMain/kotlin/me/dmdev/premo/PresentationModel.kt:147-156 | The new child is restored from the parent snapshot's child under the tag, with this node's codec. It is in this node's lifecycle state and stored under its tag, replacing any earlier child there. The other children, the navigator and the states are unchanged, and the tree stays valid. |
| `PresentationModels.PresentationModel.Attach` | premo/src/commonMain/kotlin/me/dmdev/premo/PresentationModel.kt:154 | Storing a new one-node tree under a tag keeps the tree invariant and changes only that map entry. |
| `PresentationModels.PresentationModel.SaveableState` | premo/src/commonMain/kotlin/me/dmdev/premo/PresentationModel.kt:168-181 | The returned cell is fresh and holds `SavedValue`. It is registered under the key with its type, replacing an earlier registration. Nothing else changes. |
| `PresentationModels.PresentationModel.RestoredNodes` | premo/src/commonMain/kotlin/me/dmdev/premo/PresentationModel.kt:100-112 | One fresh child per saved entry, in the snapshot's order and number, each carrying that entry's tag, description and snapshot, with this node as parent and this node's codec. |
| `PresentationModels.PresentationModel.Navigator` | premo/src/commonMain/kotlin/me/dmdev/premo/PresentationModel.kt:98-127 | An existing navigator is kept as it is. Otherwise the back stack is the snapshot's, restored in order with this node's codec. When that is empty, it is one fresh child for `initialDescription`, restored from this node's snapshot's child under its tag, with this node's codec. Every entry of a new navigator is fresh, and the stack is never empty afterwards. |
| `PresentationModels.PresentationModel.SetBackStack` | premo/src/commonMain/kotlin/me/dmdev/premo/PresentationModel.kt:118-125 | Installing a navigator over new one-node trees keeps the tree invariant and changes nothing else. |
| `PresentationModels.PresentationModel.BackHandler` | premo/src/commonMain/kotlin/me/dmdev/premo/PresentationModel.kt:209-216 | The node `back()` pops is the nearest one up the parent chain whose navigator has more than one entry. There is none exactly when no ancestor qualifies. |
| `PresentationModels.PresentationModel.Back` | premo/src/commonMain/kotlin/me/dmdev/premo/PresentationModel.kt:209-216 | Exactly the handler's navigator loses its top entry. Every other navigator up the chain is unchanged, so at a root with nothing to pop nothing changes. |
| `PresentationModels.PresentationModel.HandleSystemBack` | premo/src/commonMain/kotlin/me/dmdev/premo/PresentationModel.kt:218-235 | Returns false without a navigator. Otherwise it returns true when the top entry handles the back, with this node's stack unchanged. When the top entry does not handle it, the node pops and returns true only when more than one entry is left. A stack never drops below one entry, and the tree stays valid. Only this node and the top entry's subtree may change: the attached children, the other entries and the state cells are untouched. |
| `PresentationModels.PresentationModel.NestedHandleSystemBack` | premo/src/commonMain/kotlin/me/dmdev/premo/PresentationModel.kt:221-222 | The top entry's answer is whether it can handle the back. Only the top entry's subtree may change; this node's own fields stay unchanged. |
| `PresentationModels.PresentationModel.PopNavigator` | premo/src/commonMain/kotlin/me/dmdev/premo/PresentationModel.kt:224-225 | The pop drops exactly the top entry and keeps the tree invariant. |
| `PresentationModels.PresentationModel.SaveBackStack` | premo/src/commonMain/kotlin/me/dmdev/premo/PresentationModel.kt:239-241 | The saved back stack is the navigator's entries' snapshots, element-wise and in order. |
| `PresentationModels.PresentationModel.SaveState` | premo/src/commonMain/kotlin/me/dmdev/premo/PresentationModel.kt:237-252 | The snapshot has the node's tag and description. Its back stack is the entries' snapshots in order (empty without a navigator). Its children have exactly the attached tags, each with that child's snapshot. Its states have exactly the registered keys, each the codec's encoding of the cell's value. |
| `PresentationModels.SavedValueRestored` | premo/src/commonMain/kotlin/me/dmdev/premo/PresentationModel.kt:173-178 | Save then restore: when the codec round-trips, a node restored from the snapshot gets back the saved cell's value under the same key, whatever initial value it passes. |
| `PresentationModels.ChildRestored` | premo/src/commonMain/kotlin/me/dmdev/premo/PresentationModel.kt:246 | Save then restore: a child created under a tag is restored from the snapshot of the child saved under that tag, and carries its tag. |
| `PresentationModels.BackStackRestored` | premo/src/commonMain/kotlin/me/dmdev/premo/PresentationModel.kt:100-107 | Save then restore: the entries a restored navigator is rebuilt from have the saved stack's length, tags and descriptions, in order. |
| `Navigation.BackStackEntry.constructor` | premo/src/commonMain/kotlin/me/dmdev/premo/navigation/PmRouter.kt:85-88 | An entry pairs a model with its description. |
| `Navigation.Classify` | premo/src/commonMain/kotlin/me/dmdev/premo/navigation/PmRouter.kt:43-62 | Each case holds exactly when its condition does: no change iff the new stack is empty; `Set` iff there was no old top or the tops are the same entry; `Pop` iff the new top differs but is in the old stack; `Push` iff it is not in the old stack. The change names the new top's model, and `Pop`/`Push` also name the old top's model. |
| `Navigation.CollectChanges` | premo/src/commonMain/kotlin/me/dmdev/premo/navigation/PmRouter.kt:39-68 | The collecting loop emits exactly the classified changes, one per non-empty value, and its `oldPmStack` ends at the last value seen. |
| `Navigation.PmRouter.constructor` | premo/src/commonMain/kotlin/me/dmdev/premo/navigation/PmRouter.kt:37 | The stack starts empty. |
| `Navigation.PmRouter.Push` | premo/src/commonMain/kotlin/me/dmdev/premo/navigation/PmRouter.kt:70-77 | Exactly one fresh entry is appended, with the prior entries unchanged. The entry carries the description, and its model the tag, the host as parent and the host's lifecycle state. The old top is CREATED, the models already on the stack keep their tags and parents, and models stay distinct. |
| `Navigation.PmRouter.Pop` | premo/src/commonMain/kotlin/me/dmdev/premo/navigation/PmRouter.kt:79-83 | On an empty stack it fails before any change. Otherwise it drops exactly the last entry, the popped model is DESTROYED, and the new top (if any) takes the host's lifecycle state. Every model that was on the stack keeps its tag and parent. |
| `Navigation.ClassifyPush` | premo/src/commonMain/kotlin/me/dmdev/premo/navigation/PmRouter.kt:54-56 | Appending an entry not yet on a non-empty stack is classified `Push(new model, old top model)`. |
| `Navigation.ClassifyPop` | premo/src/commonMain/kotlin/me/dmdev/premo/navigation/PmRouter.kt:51-53 | Dropping the top of a stack of distinct entries with at least two of them is classified `Pop(new top model, old top model)`. |
| `Navigation.FirstEmissionIsSet` | premo/src/commonMain/kotlin/me/dmdev/premo/navigation/PmRouter.kt:40-50 | A collector started on a non-empty stack first sees that same value and emits `Set(top)`. |
| `Navigation.PushPopStream` | premo/src/commonMain/kotlin/me/dmdev/premo/navigation/PmRouter.kt:39-68 | A push then a pop, seen by a collector, emits `Set(top)`, `Push(new, top)`, `Pop(top, new)`. |
| `Navigation.ChangesNameTops` | premo/src/commonMain/kotlin/me/dmdev/premo/navigation/PmRouter.kt:43-64 | Every emitted change names the top model of some non-empty stack value that was emitted. |
| `Navigation.PushThenPop` | premo/src/commonMain/kotlin/me/dmdev/premo/navigation/PmRouter.kt:70-83 | Push followed by pop restores the original stack. The pushed model is returned, with the given tag and the host as parent. The pop step is classified exactly `Pop(original top, pushed model)`, or emits nothing when the stack was empty. |

## Left out

- Coroutine scopes (`pmScope`, `pmInForegroundScope`) and the lifecycle collectors in `init` (PresentationModel.kt:53-55, 68-95). These are concurrency and scheduling. In particular, later lifecycle changes are not propagated to the children: only `AttachedChild`'s one-time move is modelled.
- The `Flow` wrapper of `pmStackChanges` and `StateFlow` conflation. The stream is modelled as the sequence of values the collector sees, starting with the current value.
- `PmLifecycle`, `Navigator`, `State`, `PmFactory`, `StateSaver` and `PmStateCreator` are not part of this model:
  - a navigator is its back stack, and its push and pop append and drop an entry (any lifecycle effects it has are not modelled);
  - the factory is the node's constructor. Subclass initialisers never run, so every node that `Child` or `RestoredNodes` creates is an empty one-node tree (no children, no saveable states, no navigator), whereas in the source a created node may build children in its initialiser (sample/app-common/src/commonMain/kotlin/me/dmdev/premo/sample/bottom_navigation/BottomNavigationPm.kt:37-41);
  - the codec is a pair of functions with no law assumed, so round-trip lemmas take one as a hypothesis;
  - the snapshot creator is the `PmState` constructor.
- `randomUUID()` tag generation: tags are inputs. The tag of the child `Navigator(...)` pushes is the parameter `initialTag`.
- `handleNavigationMessage`, which only forwards to the parent, and the lifecycle hooks `onCreate` and the others, which are empty.
- The `State` value setter and the state cell's flow: a cell is an object with one mutable `value`.
- `PresentationModels.PresentationModel.Back`: does not state that the tree invariant `Valid()` is kept, only which navigators change. It walks up the parent chain, which is outside any one node's footprint.
- `PresentationModels.PresentationModel.NestedHandleSystemBack`: its answer is stated, and its frame is the top entry's subtree, but not which navigators inside that subtree it popped. Only this node's part of `HandleSystemBack` is stated exactly.
- A null snapshot back stack and an empty one are the same here. `Navigator(...)` treats them alike, since both end with one pushed child.
- Values held in state cells, descriptions and encoded states are strings. The model never looks inside them.
