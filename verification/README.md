# VulkanSceneGraph: descriptor accounting, compile traversal and pipeline barriers

A Dafny model of three pieces of VulkanSceneGraph:

- **`CollectDescriptorStats`** is a read-only visitor. It walks a scene graph and works out how large a shared descriptor pool must be:
  - the largest state-command slot;
  - the number of distinct descriptor sets, plus any set counts declared by `ResourceHints`;
  - per descriptor type, the total number of descriptors.

  A node carrying a `ResourceHints` entry stands in for its whole subtree. Descriptor sets met twice are counted once. Descriptors are counted on every visit.
- **`CompileTraversal`** walks the graph and asks each Command, Commands, StateGroup and Geometry node to compile itself. It threads a context: a render pass plus the *default* and *override* pipeline-state lists. RenderGraph nodes, and CommandGraph nodes that have a window, are boundaries. They set the render pass, push a viewport state (and a multisample state for multisampled windows), traverse their children, and then put back a snapshot of the two lists.
- **`PipelineBarrier.h`**:
  - the three Vulkan barrier records with their defaults;
  - the templated constructor that takes one barrier;
  - the three `add` overloads, which append to the list of the barrier's kind.

Files:

| file | module | contents |
|---|---|---|
| `vk.dfy` | `Vk` | `u32`/`u64`, `VK_QUEUE_FAMILY_IGNORED` and other constants, 32-bit wrap-around (`Wrap32`), `Option`, `Result` |
| `descriptor_stats.dfy` | `DescriptorStats` | the visitor as a left fold `Visit` over an accumulator `Stats`; a reference `Reach` that lists what a walk meets; the fold/reference lemma `VisitReaches`; the two result computations |
| `compile_traversal.dfy` | `CompileTraversal` | the traversal `Traverse` over a `Run` (context plus a trace of compile events); a reference `EffectOf`; the lemma `TraverseProduces` connecting them; boundary properties |
| `pipeline_barrier.dfy` | `PipelineBarrier` | barrier records, defaults, `Add`, `Create`, `AddAll` and their ordering lemmas |

How identity is modelled:
- Pointers and `ref_ptr` become integer ids.
- An object shared between two parents appears twice in the tree with the same id.
- "Already seen" in the descriptor-set dedup means "id already recorded".

The C++ `+=` on `uint32_t` wraps modulo 2^32. `Wrap32` models this explicitly wherever the source adds counts:
- `descriptorTypeMap[type] += count`;
- `externalNumDescriptorSets += ...`;
- the sum in `computeNumDescriptorSets`.

Each operation is paired with a reference definition and a lemma that connects the two:
- `Visit` is paired with `Reach` through `VisitReaches`.
- `Traverse` is paired with `EffectOf` and `Crashes` through `TraverseProduces`.
- `AddAll` is paired with `MemoryOf`, `BufferOf` and `ImageOf` through `AddAllKeepsOrder`.

The context as the compile calls see it is recorded in the trace. `Compiled(id, context)` means `compile(context)` was called on node `id` with that context.

## Model

| member | source | states |
|---|---|---|
| DescriptorStats.AddCount | src/vsg/traversals/CompileTraversal.cpp:112 | adding a count to a type makes the type a key and raises its entry by the count modulo 2^32 (an absent key reads as 0); every other type's entry is unchanged |
| DescriptorStats.AddPoolSizesKeys | src/vsg/traversals/CompileTraversal.cpp:63-66 | folding a hint's pool-size list into the type map adds exactly the listed types as keys |
| DescriptorStats.AddPoolSizesSum | src/vsg/traversals/CompileTraversal.cpp:63-66 | after the fold, each type's entry equals its old entry plus that type's total in the list, modulo 2^32 |
| DescriptorStats.ApplyHints | src/vsg/traversals/CompileTraversal.cpp:55-68 | the largest slot becomes the max of the old one and the hint's. Set count and type totals grow only when the hint has pool sizes or declares more than 9 sets. Otherwise they are unchanged, and the set and descriptor records never change |
| DescriptorStats.ApplyDescriptor | src/vsg/traversals/CompileTraversal.cpp:106-113 | the descriptor's id is recorded, its type's entry grows by its count modulo 2^32, and every other accumulator and type entry is unchanged |
| DescriptorStats.Visit | src/vsg/traversals/CompileTraversal.cpp:35-113 | the `apply` overloads as one dispatch on the kind of object met. It has no contract of its own; its behaviour is stated by `DescriptorStats.VisitReaches` |
| DescriptorStats.VisitCommand | src/vsg/traversals/CompileTraversal.cpp:89-94 | a state command raises the largest slot, then traverses what it binds. Stated through `DescriptorStats.VisitReaches` and `DescriptorStats.MaxSlotIsLargestMet` |
| DescriptorStats.VisitSet | src/vsg/traversals/CompileTraversal.cpp:96-104 | a set already recorded is skipped; otherwise it is recorded and its descriptors are visited. Stated through `DescriptorStats.RepeatedSetIsIgnored` and `DescriptorStats.SharedSetCountedOnce` |
| DescriptorStats.VisitReaches | src/vsg/traversals/CompileTraversal.cpp:35-113 | the fold ends with: the max of the entry slot and every slot met; the set ids and descriptor ids met, added to those recorded; the hinted set counts added modulo 2^32; the type map folded with every (type, count) met, in walk order |
| DescriptorStats.HintedNodesContributeOnlyTheHint | src/vsg/traversals/CompileTraversal.cpp:40-87 | a Node or StateGroup carrying hints gives exactly the result of the bare hints; its state commands and children are never visited and no set id is recorded from them |
| DescriptorStats.ObjectsIgnoreHints | src/vsg/traversals/CompileTraversal.cpp:35-38 | a plain Object is traversed whether or not it carries a hint |
| DescriptorStats.RepeatedSetIsIgnored | src/vsg/traversals/CompileTraversal.cpp:96-104 | a descriptor set whose id is already recorded leaves every accumulator unchanged |
| DescriptorStats.SharedSetCountedOnce | src/vsg/traversals/CompileTraversal.cpp:96-104 | meeting a set a second time changes nothing; the first meeting adds exactly that set's id to those recorded |
| DescriptorStats.DescriptorCountedOnEveryVisit | src/vsg/traversals/CompileTraversal.cpp:106-113 | a descriptor met twice adds twice its count to its type (modulo 2^32), while its id is recorded once |
| DescriptorStats.DescriptorSharedBySetsCountedTwice | src/vsg/traversals/CompileTraversal.cpp:96-113 | a descriptor held by two different sets, both new, is counted once through each (twice its count, modulo 2^32); both set ids and its one id are recorded |
| DescriptorStats.DescriptorIdsNeverAffectCounts | src/vsg/traversals/CompileTraversal.cpp:106-113 | whatever the descriptor-id record holds on entry, the slot, set count, set ids and type map after a walk are the same |
| DescriptorStats.MaxSlotIsLargestMet | src/vsg/traversals/CompileTraversal.cpp:55-94 | the largest slot never decreases, bounds every slot the walk meets (state commands and hints), and is either the entry value or one of those slots |
| DescriptorStats.TypeCountIsSumReached | src/vsg/traversals/CompileTraversal.cpp:55-113 | each type's entry after any walk is its entry before plus the total of that type over everything the walk reaches, modulo 2^32 |
| DescriptorStats.TypesReachedBecomeKeys | src/vsg/traversals/CompileTraversal.cpp:55-113 | the type map gains a key for exactly the types the walk reaches |
| DescriptorStats.ComputeNumDescriptorSets | src/vsg/traversals/CompileTraversal.cpp:115-118 | the result is the hinted set count plus the number of distinct sets recorded, modulo 2^32 |
| DescriptorStats.ComputeDescriptorPoolSizes | src/vsg/traversals/CompileTraversal.cpp:120-128 | one entry per type in the map, in strictly ascending type order (the order of `std::map`), each carrying that type's count |
| DescriptorStats.CollectDescriptorStats | src/vsg/traversals/CompileTraversal.cpp:35-128 | from fresh accumulators: the slot is the largest slot met (or 0); the set count is the hinted counts plus the distinct sets met, modulo 2^32; the pool sizes list exactly the types met, ascending, each with its total modulo 2^32 |
| CompileTraversal.Traverse | src/vsg/traversals/CompileTraversal.cpp:162-247 | the `apply` overloads as one dispatch on the node kind. It has no contract of its own; its behaviour is stated by `CompileTraversal.TraverseProduces` |
| CompileTraversal.Scoped | src/vsg/traversals/CompileTraversal.cpp:203-211 | a boundary traverses its children from the pushed context, then puts back the snapshot's two lists and keeps the children's render pass. Stated through `CompileTraversal.TraverseProduces` |
| CompileTraversal.TraverseProduces | src/vsg/traversals/CompileTraversal.cpp:162-247 | a traversal fails exactly when it reaches a RenderGraph with neither a camera viewport nor a window. Otherwise it appends compile events for exactly the reference's ids in order, and leaves the reference's render pass and leftover list entries |
| CompileTraversal.CommandsCompileWithoutTraversing | src/vsg/traversals/CompileTraversal.cpp:167-175 | Command and Commands compile once with the context handed to them, change nothing in it, and their children are never visited |
| CompileTraversal.CompilesBeforeChildren | src/vsg/traversals/CompileTraversal.cpp:177-187 | StateGroup and Geometry behave alike: the node's own compile event, with the entry context, comes before every event of its children |
| CompileTraversal.CommandGraphWithoutWindowIsGroup | src/vsg/traversals/CompileTraversal.cpp:213-216 | a CommandGraph with no window just traverses its children |
| CompileTraversal.RenderGraphRestoresLists | src/vsg/traversals/CompileTraversal.cpp:219-247 | a RenderGraph fails iff it needs its window's extent and has none, or a descendant fails. On success both lists are exactly as on entry, and the render pass is whatever its subtree left |
| CompileTraversal.CommandGraphKeepsItsPushes | src/vsg/traversals/CompileTraversal.cpp:189-212 | as written, after a CommandGraph with a window the defaults end with its viewport state, and the overrides end with a multisample state unless the window is single-sampled |
| CompileTraversal.CommandGraphChildrenSeeWindowStates | src/vsg/traversals/CompileTraversal.cpp:191-207 | when no boundary lies anywhere below a windowed CommandGraph, every node below it compiles with the window's render pass, with the viewport for its extent appended to the defaults and its multisample state (unless single-sampled) appended to the overrides |
| CompileTraversal.RenderGraphChildrenSeeViewport | src/vsg/traversals/CompileTraversal.cpp:221-242 | when no boundary lies anywhere below a RenderGraph, every node below it compiles with its render pass. The defaults get the camera's viewport state if it has one, else a viewport for the window's extent. The overrides get the window's multisample state unless it is single-sampled |
| CompileTraversal.RenderPassNotRestored | src/vsg/traversals/CompileTraversal.cpp:189-247 | after either boundary (with no boundary below it), the context keeps the boundary's render pass rather than the one it had on entry |
| CompileTraversal.CommandGraphStatesReachSibling | src/vsg/traversals/CompileTraversal.cpp:195-211 | as written, a command following a 4-sample window's CommandGraph compiles with that graph's viewport and multisample states |
| CompileTraversal.IntendedLeavesNoStates | src/vsg/traversals/CompileTraversal.cpp:203-211 | with the snapshot taken before the pushes, no node leaves anything on either list |
| CompileTraversal.IntendedTraversalRestoresLists | src/vsg/traversals/CompileTraversal.cpp:203-211 | with the snapshot taken before the pushes, any completed traversal leaves both lists exactly as on entry |
| PipelineBarrier.DefaultMemoryBarrier | include/vsg/commands/PipelineBarrier.h:30-34 | no chained info, and both access masks 0 |
| PipelineBarrier.DefaultBufferMemoryBarrier | include/vsg/commands/PipelineBarrier.h:39-48 | masks 0, both queue families `VK_QUEUE_FAMILY_IGNORED`, no buffer, offset and size 0 |
| PipelineBarrier.NewImageMemoryBarrier | include/vsg/commands/PipelineBarrier.h:55-70 | each constructor argument lands in its field, with no chained info |
| PipelineBarrier.DefaultImageMemoryBarrier | include/vsg/commands/PipelineBarrier.h:55-80 | masks 0, both layouts `VK_IMAGE_LAYOUT_UNDEFINED`, both queue families ignored, no image, and an all-zero subresource range |
| PipelineBarrier.DefaultsTransferNothing | include/vsg/commands/PipelineBarrier.h:44-45 | default buffer and image barriers request no queue-family ownership transfer |
| PipelineBarrier.Add | include/vsg/commands/PipelineBarrier.h:111-113 | a barrier is appended to the end of its own kind's list; the other two lists, the stage masks and the dependency flags are unchanged |
| PipelineBarrier.Create | include/vsg/commands/PipelineBarrier.h:100-107 | masks and flags come from the arguments; the barrier is the only entry in its kind's list, and the other lists are empty |
| PipelineBarrier.AddAllKeepsOrder | include/vsg/commands/PipelineBarrier.h:111-125 | adding barriers in turn extends each list by exactly the barriers of its kind, in the order given |
| PipelineBarrier.EveryBarrierLandsOnce | include/vsg/commands/PipelineBarrier.h:111-113 | every added barrier lands in exactly one of the three lists |
| PipelineBarrier.CreateThenAddKeepsOrder | include/vsg/commands/PipelineBarrier.h:100-125 | after the constructor and further `add`s, each list holds the barriers of its kind in order, the constructor's first |

## Left out

- The CompileTraversal constructors (CompileTraversal.cpp:134-160) are not modelled: they acquire a device, command pool and queue. The traversal starts from any given context.
- CompileTraversal.CommandGraphChildrenSeeWindowStates and CompileTraversal.RenderGraphChildrenSeeViewport cover only subtrees with no boundary anywhere below. A node that follows a nested boundary compiles under that boundary's render pass, because neither boundary restores it. After a nested windowed CommandGraph it also sees that graph's leaked states. `TraverseProduces` still describes such trees through `EffectOf`.
- `compile` is assumed never to fail. A throwing compile inside a boundary would skip that boundary's restore (CompileTraversal.cpp:209-211, 244-246) and leave its pushes in the context. `TraverseProduces` covers only the null-window failure.
- `compile(context)` bodies live in other classes. A compile is an event recording the context it was given. It is assumed not to change the render pass or the two lists.
- The other context fields (device, command pool, queue, buffer preferences) are not modelled. The traversal never touches them.
- `getObject("ResourceHints")` with `dynamic_cast` is modelled as an optional `hints` field on Object, Node and StateGroup.
- `RenderGraph::getRenderPass()` is not part of this model. Its value is a field of the RenderGraph node.
- In the descriptor walk, every `vsg::Node` (Group, LOD, Geometry, Commands, ...) is `Node`: it is checked for hints, then traversed. Objects that are not Nodes are `Object`: they are only traversed. In the compile walk, node kinds without their own `apply` overload are `Group`: they are only traversed. A StateCommand's traversal (descriptor sets it binds) is its `children`.
- Descriptor-set layouts, and how a `Descriptor` subclass traverses its resources, are left out. Descriptors are leaves.
- The initialisers of the CollectDescriptorStats accumulators are not part of this model. `CollectDescriptorStats` starts from 0 and empty sets.
- `PipelineBarrier()` default constructor, `record` and every `assign` are left out: their bodies are not part of this model and they emit Vulkan calls.
- `SampleLocations` (floating-point sample positions, `VK_SAMPLE_COUNT_FLAG_BITS_MAX_ENUM`) is left out: nothing in the modelled code reads it. `VulkanInfo::next` chains are kept as opaque ids.
- Null `ref_ptr` barriers passed to `add`, and aliasing of one barrier object between lists, are not modelled. Barriers are values.
- Vulkan flag words are opaque `u32` values; no bit is interpreted.
- Reference counting, threads and allocation are left out.
- Neither boundary restores `renderPass` on exit, so the model promises no such restore (`RenderPassNotRestored`).
- A descriptor is counted on every visit, not once per object (`DescriptorCountedOnEveryVisit`, `DescriptorSharedBySetsCountedTwice`).
- The compile traversal keeps no record of nodes already compiled. A node shared between two parents compiles once per path, as in the code.

## Findings

| source | as written | input that shows it | evidently intended | confidence | as-written member | corrected member |
|---|---|---|---|---|---|---|
| src/vsg/traversals/CompileTraversal.cpp:195-211 | the CommandGraph copies the two lists after pushing its viewport and multisample states, so the "restore" puts those pushes back and they stay on the lists | a Group holding a CommandGraph for a 4-sample 800x600 window (no children) followed by a Command: the Command compiles with `[ViewportState(800x600)]` defaults and `[MultisampleState(4)]` overrides | snapshot the lists before the pushes, as the comment at line 203 says and as RenderGraph (lines 223-225) does, so a command graph's states are scoped to its subtree | medium, not executed | CompileTraversal.CommandGraphStatesReachSibling | CompileTraversal.IntendedTraversalRestoresLists |

`Traverse` takes the snapshot point as a parameter. `AfterPush` is the code as written; `BeforePush` is the corrected behaviour. The lemmas that take the snapshot point as an argument hold for both.
