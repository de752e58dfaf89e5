# sard `Definitions` walker, in Dafny

This project models the `Definitions` iterator of the sard Ruby indexer
(src/definitions.rs). The iterator walks a parsed Ruby syntax tree and
lazily yields the named items the tree defines:

- modules and classes;
- `def` and `def self.` methods;
- constant assignments;
- `attr_reader` / `attr_writer` / `attr_accessor` sends;
- Sorbet `prop` / `const` sends.

While walking, it threads the signature parsed from the most recent
`sig { ... }` block onto the method-like item that follows.

The walker is the class `Definitions.Definitions`. Its two fields match the
source:

- `context` is the LIFO stack of items still to yield.
- `stashedSig` is the pending-signature slot.

Each of its methods is proved against a pure function on values:

| source function | method | specification function |
|---|---|---|
| `new` | constructor | `Start` |
| `push_next` | `PushNext` | `Decode` / `DecodeSeq` |
| `known_defining_method` | `KnownDefiningMethod` | `DefiningSend` |
| `push_children` | `PushChildren` | `Expand` |
| `next` | `Next` | `Step` |

`Traversal.Run` is the whole sequence that repeated `next` calls yield, and
`Traversal.Walk` is the same sequence starting from a fresh walker. The
lemmas about these functions state what the source promises:

- termination after exactly as many items as the tree defines;
- every yielded item is well formed;
- a pending signature is consumed by at most one item, because every item that takes it empties the slot (`Definitions.MethodTakesSig`, `Definitions.DefiningSend`), and the walk attaches no more signatures than the tree has `sig` blocks;
- containers come before their bodies;
- siblings come out in reverse source order;
- the items yielded are exactly the tree's defining nodes, in an order read off the tree alone (`Traversal.Order`);
- the signature hand-off.

`Scenarios` walks concrete trees end to end, including the repository's
sample file.

Files:

- wrappers.dfy: `Option`.
- ruby_ast.dfy: the part of lib_ruby_parser's tree the walker reads.
- types.dfy: `Sig` and `Type` from src/types.rs.
- definitions.dfy: items, the specification functions, and the walker class.
- traversal.dfy: whole-walk properties and the consumer loop.
- scenarios.dfy: concrete walks.

## Model

| member | source | states |
|---|---|---|
| Definitions.Definitions.constructor | src/definitions.rs:15-22 | A new walker starts with an empty stack and no pending signature, then decodes the root once: its state is `Start(root)`, and every stacked item is well formed and safe. |
| Definitions.Definitions.PushNext | src/definitions.rs:30-86 | The stack grows by exactly the items `Decode` gives for the node and the slot becomes `Decode`'s slot. The `Begin` loop keeps the stack equal to the old stack plus the decoding of the statements seen so far. |
| Definitions.Definitions.PushChildren | src/definitions.rs:91-97 | A class or module with a body has that body decoded onto the stack. Any other item changes nothing. |
| Definitions.Definitions.KnownDefiningMethod | src/definitions.rs:101-133 | The item returned and the new slot are exactly those of `DefiningSend`. |
| Definitions.Definitions.Next | src/definitions.rs:139-153 | The item returned and the new state are exactly `Step` of the old state. The walker stays valid: all items are well formed and no pending body can panic. |
| Definitions.DefiningSend | src/definitions.rs:101-133 | Returns an item iff the send has at least one argument, the first argument is a symbol, and the name is `attr_*`, `prop` or `const`. The item records the send and is well formed: matching attr/prop kind, the symbol from `args[0]`, and `args[1]` as the prop type. `attr_*` items take the pending signature and clear the slot. `prop`/`const` items leave the slot alone. No item means the slot is unchanged. |
| Definitions.Decode | src/definitions.rs:30-86 | Every item pushed is well formed and safe. The items pushed account for exactly `Total(node)` yields still to come. |
| Definitions.DecodeSeq | src/definitions.rs:64-70 | Statements are decoded left to right with the slot threaded through. The pushed items are well formed and account for exactly `TotalSeq(stmts)` yields. |
| Definitions.DecodeConservesSigs | src/definitions.rs:42-51 | A count bound: the signatures attached to the pushed items, plus those pending in their bodies, plus the slot, are at most the pending signature plus the `sig` blocks in the node. |
| Definitions.DecodeSeqConservesSigs | src/definitions.rs:64-70 | The same conservation for a statement list, by induction together with `DecodeConservesSigs`. |
| Definitions.ContainerDeferred | src/definitions.rs:33-40 | A module or class pushes exactly one item for that node and clears the slot. The item's pending body is the node's own body, so the body is not decoded yet. |
| Definitions.MethodTakesSig | src/definitions.rs:42-51 | A `def` / `def self.` pushes one item carrying exactly the pending signature (it has a signature iff one was pending) and leaves the slot empty, so no later item can take the same signature. |
| Definitions.CasgnKeepsSlot | src/definitions.rs:53-55 | A constant assignment pushes one item with no type and leaves the slot unchanged. |
| Definitions.SigBlockFillsSlot | src/definitions.rs:73-83 | A block whose call is `sig` and which has a body pushes nothing and replaces the slot with the parsed body. |
| Definitions.OtherNodesInert | src/definitions.rs:56-84 | Symbols, constants and unlisted node kinds leave the stack and the slot unchanged. So do non-`sig` blocks, blocks without a body, and sends that define nothing. |
| Definitions.DecodeSeqNext | src/definitions.rs:67-69 | Decoding the first `i + 1` statements is decoding the first `i`, then statement `i` from the slot they left. |
| Definitions.DecodeSeqSnoc | src/definitions.rs:67-69 | Appending a statement appends its decoding, started from the slot the earlier statements left. |
| Definitions.SigHandOff | src/definitions.rs:42-51 | A `sig` block followed directly by a method definition gives that method the parsed signature and leaves the slot empty, whatever earlier statements left pending. |
| Definitions.Step | src/definitions.rs:139-153 | Returns None iff the stack is empty, and then the state is unchanged, so an exhausted walker stays exhausted. Otherwise it returns the old top. The stack stays safe and well formed, and the remaining count drops by exactly one. |
| Definitions.StepConservesSigs | src/definitions.rs:144-152 | A count bound for one `next`: the popped item's signature, plus those on the new stack, in pending bodies and in the slot, are at most the count before. |
| Definitions.Expand | src/definitions.rs:91-97 | An item with no body to expand pushes nothing and leaves the slot alone. Whatever is pushed is well formed and safe, and accounts for exactly the item's share of the walk less the item itself. |
| Definitions.Start | src/definitions.rs:15-22 | The state after `new`: a safe, well-formed stack that accounts for exactly `Total(root)` yields. |
| Definitions.LeafPopsAlone | src/definitions.rs:91-97 | Popping an item with no body to expand returns it and leaves the rest of the stack and the slot as they were. |
| Traversal.Run | src/definitions.rs:139-153 | Repeated `next` yields exactly `Remaining(stack)` items, so the walk terminates. If the stack was well formed, every yielded item is well formed. |
| Traversal.RunConservesSigs | src/definitions.rs:139-153 | Over the whole walk, the signatures attached plus the one left in the slot are at most those on the stack, in pending bodies and in the slot at the start. |
| Traversal.StepPops | src/definitions.rs:144-152 | `next` on `below + [top]` yields `top`. The new stack is `below` followed by what expanding `top` pushes. |
| Traversal.RunPops | src/definitions.rs:144-152 | The walk from a non-empty stack is its top, then the walk from the state `next` leaves. |
| Traversal.ReverseSnoc | src/definitions.rs:144 | Reversing a sequence with one item appended puts that item first. |
| Traversal.LeavesComeOutReversed | src/definitions.rs:144 | Items with no body to expand come out in reverse of their push order and leave the slot alone. |
| Traversal.ContainerAlone | src/definitions.rs:150-152 | A container alone on the stack yields itself, then the whole walk of its freshly decoded body. |
| Traversal.EmptyBodyHandsDown | src/definitions.rs:91-97 | A container whose body pushes nothing yields itself. The item below it is then walked from the slot that body left. |
| Traversal.ContainerOfLeaves | src/definitions.rs:144-152 | A container whose body pushes only leaves yields itself, then those leaves in reverse source order. |
| Traversal.Walk | src/definitions.rs:15-22 | A fresh walker on `root` yields exactly `Total(root)` items, all well formed. Which items they are is stated by `Traversal.WalkOrder`. |
| Traversal.DecodeOrder | src/definitions.rs:30-86 | Whatever the slot, the items decoding a node pushes account, top of the stack first, for exactly the node's reference order `Order(node)`: a container, then its body; statements last first; one entry per defining node. |
| Traversal.DecodeSeqOrder | src/definitions.rs:64-70 | The items a statement list pushes account for the statements' orders, last statement first. |
| Traversal.ExpandOrder | src/definitions.rs:91-97 | A popped item accounts for itself, then for exactly what expanding its body pushes. |
| Traversal.PopOrder | src/definitions.rs:144-152 | If what is yielded after popping `top` follows the new stack's order, then `top` followed by it follows the old stack's order. |
| Traversal.RunOrder | src/definitions.rs:139-153 | The walk from any stack yields the nodes of its items in the stack's reference order: the top item and its whole body first, the bottom item last. |
| Traversal.WalkOrder | src/definitions.rs:15-22 | A fresh walker on `root` yields, item by item, the nodes of `Order(root)`: every module, class, method, constant assignment and defining send, each container before its body and sibling statements last first. So `Order(root)` has `Total(root)` entries, and which nodes come out, and in what order, does not depend on the signatures. |
| Traversal.WalkConservesSigs | src/definitions.rs:42-51 | The walk attaches no more signatures than the tree has `sig` blocks. |
| Traversal.RunSplit | src/definitions.rs:144-152 | Everything on the upper part of the stack, with all its bodies, is yielded before anything below it. The lower part is walked from the slot the upper part left. |
| Traversal.ContainerFirst | src/definitions.rs:144-152 | A class or module is yielded before anything from its body. Its body, decoded only when the container is popped, is yielded in full before anything below it. |
| Traversal.LaterSiblingsFirst | src/definitions.rs:64-70 | For a statement list split into `pre` and `post`, everything `post` produces, bodies included, is yielded before anything `pre` produces. |
| Traversal.SafeStackAppend | src/definitions.rs:10 | Concatenating two safe stacks gives a safe stack. |
| Traversal.DecodeSeqAppend | src/definitions.rs:64-70 | Decoding `a + b` is decoding `a`, then `b` from the slot `a` left. |
| Traversal.DecodeClassLast | src/definitions.rs:37-40 | A statement list ending in a class pushes the class last and leaves the slot empty. |
| Traversal.ScopeReset | src/definitions.rs:37-40 | For a class that ends a statement list, whatever precedes it (even a `sig` block), the walk starts with the class followed by exactly the walk of its body alone. |
| Traversal.ContainerIgnoresSlot | src/definitions.rs:33-40 | Decoding a class or module gives the same result whatever the slot holds. |
| Traversal.SigBeforeContainerHead | src/definitions.rs:33-40 | A statement list ending in a `sig` block followed by a class or module decodes exactly as it would without the block. |
| Traversal.SigBeforeContainerDropped | src/definitions.rs:33-40 | A `sig` block directly before a class or module, at any position in a statement list and from any starting slot, changes nothing in how the list decodes. |
| Traversal.SigBeforeContainerWalk | src/definitions.rs:33-40 | So a file walks identically with or without such a block. |
| Traversal.Collect | src/main.rs:13-16 | Pulling with `next` until None collects exactly `Run` of the starting state and leaves the stack empty. |
| Scenarios.NestedHandOff | src/definitions.rs:42-51 | `sig { .. }; def foo` pushes `foo` carrying the parsed signature and leaves the slot empty. |
| Scenarios.NestedBodyDecodes | src/definitions.rs:42-51 | In `sig; def foo; def bar`, `foo` takes the signature and `bar` gets none. |
| Scenarios.NestedClassRun | src/definitions.rs:139-153 | Walking that class yields the class, then `bar`, then `foo`. |
| Scenarios.NestedOrder | src/definitions.rs:139-153 | Walking `module A; class B; ...` yields module A, class B, `bar` without a signature, then `foo` with its signature. |
| Scenarios.CollectNested | src/main.rs:13-16 | A new walker on that tree, drained by the consumer loop, collects that same sequence. |
| Scenarios.SampleFirstHandOff | sample/sample.rb:6-12 | In the sample, `X = 5` takes no signature and the first `sig` goes to `self.do_the_thing`. |
| Scenarios.SampleSecondHandOff | sample/sample.rb:14-17 | The second `sig` goes to `add_one`. |
| Scenarios.SampleReader | sample/sample.rb:20 | `attr_reader :foo` finds the slot empty and gets no signature. |
| Scenarios.SampleBodyDecodes | sample/sample.rb:6-23 | The class body pushes the assignment, the two methods with their signatures, the reader and the `const` prop with its type expression, in source order. |
| Scenarios.SampleClassRun | sample/sample.rb:4-24 | Walking class `Bar` yields the class, then its body from the last statement back to the first. |
| Scenarios.SampleOrder | sample/sample.rb:2-25 | The sample file's walk is module, class, `const :bar`, `attr_reader :foo`, `add_one` with the second signature, `self.do_the_thing` with the first, then `X`. |
| Scenarios.LeakClassRun | src/definitions.rs:91-97 | A class whose body is one method, walked from any slot, gives that method the slot's signature. |
| Scenarios.LeakRootDecodes | src/definitions.rs:64-70 | Two sibling classes are pushed in source order and leave the slot empty. |
| Scenarios.LeakStackRun | src/definitions.rs:91-97 | With class A below class B on the stack, B's body only fills the slot. A's body then attaches that signature to A's method. |
| Scenarios.SigLeaksAcrossClasses | src/definitions.rs:91-97 | For `class A; def x; end; class B; sig {..}; end`, the walk yields B, A, then `x` carrying B's signature. |
| Scenarios.ArgumentChecks | src/definitions.rs:102-109 | A send with no arguments, or whose first argument is not a symbol, pushes nothing and leaves the slot alone, whatever its name. |
| Scenarios.PropNeedsType | src/definitions.rs:129-130 | `prop :name` or `const :name` with no second argument is not safe to walk. |

## Left out

- src/main.rs is left out apart from its iteration loop, which `Traversal.Collect` models. That covers parsing with lib_ruby_parser, `unwrap` of the tree, printing, and slicing comment text.
- `Sig::parse_sig` is not part of this model. The walker takes it as a caller-supplied function from a body node to an optional signature.
- The `NamedItem`, `AttrType` and `PropType` definitions, qualified-name resolution of module and class names, and display formatting are not part of this model. Names are kept as opaque tree nodes.
- The tree keeps the node kinds the walker matches on, plus `Sym` and `Const` as argument nodes. A few fields the walker never reads are kept so that nodes can be told apart: a class's superclass, a method's name and body, a singleton method's receiver, a constant assignment's scope and value, and a send's receiver. Every other node kind is `Other`, and source locations, `def` argument lists and the like are dropped.
- `prop` / `const` with a symbol but no second argument index `args[1]` unchecked and panic. The model does not walk such trees: every operation requires `Safe`, which says no reachable send panics.
- Rust lifetimes and borrowing are modelled as plain immutable values. `std::mem::replace` on the slot is a read followed by an assignment.
- Two behaviours of the code worth knowing; the model follows the code:
  - A pending signature is not confined to its own class. The slot is cleared only when a module or class node is decoded, not when its body is expanded, and bodies are expanded in reverse sibling order. So a `sig` block left pending at the end of one class body can go to an item in the body of the next class or module the walker expands, such as an earlier sibling class. It goes to the first `def`, `def self.` or `attr_*` decoded there, provided no `sig` block, class or module comes before that item in that body; otherwise it is overwritten or cleared (`Scenarios.SigLeaksAcrossClasses` shows the leak).
  - A one-argument `prop` / `const` is not skipped like the other malformed sends. It panics, as described above.
