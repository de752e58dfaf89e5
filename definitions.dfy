/**
 * The `Definitions` walker of src/definitions.rs: a lazy iterator over a
 * parsed Ruby tree that yields the named items it defines (modules,
 * classes, methods, constant assignments, `attr_*` and Sorbet `prop`/`const`
 * declarations), threading the most recent `sig { ... }` block onto the
 * method-like item that follows it.
 *
 * The walker is a class with the two fields of the source: the LIFO stack
 * `context` and the pending-signature slot `stashedSig`. Each of its methods
 * is proved against a pure function on values: `Decode` for `push_next`,
 * `DefiningSend` for `known_defining_method`, `Expand` for `push_children`
 * and `Step` for `next`.
 */
module Definitions {

  import opened Wrappers
  import opened RubyAst
  import opened Types

  /** `Sig::parse_sig`, which is not part of this model: supplied by the caller. */
  type SigParser = Node -> Option<Sig>

  datatype AttrType = Reader | Writer | Accessor

  datatype PropType = Prop | Const

  /** An item the walker yields; `decl` is the tree node it was decoded from. */
  datatype NamedItem =
    | ModuleItem(name: Node, decl: Node)
    | ClassItem(name: Node, decl: Node)
    | DefItem(decl: Node, sig: Option<Sig>)
    | DefsItem(decl: Node, sig: Option<Sig>)
    | CasgnItem(decl: Node, ty: Option<Type>)
    | AttrItem(attr: AttrType, decl: Node, sym: Node, sig: Option<Sig>)
    | PropItem(prop: PropType, decl: Node, sym: Node, typeExpr: Node)

  /** What decoding one node does: the items pushed, in push order, and the slot afterwards. */
  datatype Effect = Effect(items: seq<NamedItem>, sig: Option<Sig>)

  /** The walker's whole state: the stack (top at the end) and the slot. */
  datatype State = State(stack: seq<NamedItem>, sig: Option<Sig>)

  // ---------------------------------------------------------------------
  // Recognising defining sends

  function AttrTypeOf(methodName: string): Option<AttrType>
  {
    if methodName == "attr_reader" then Some(Reader)
    else if methodName == "attr_writer" then Some(Writer)
    else if methodName == "attr_accessor" then Some(Accessor)
    else None
  }

  function PropTypeOf(methodName: string): Option<PropType>
  {
    if methodName == "prop" then Some(Prop)
    else if methodName == "const" then Some(PropType.Const)
    else None
  }

  /** The shape every defining send has: at least one argument, the first a symbol. */
  predicate HasSymbolFirst(send: Node)
    requires send.Send?
  {
    |send.args| >= 1 && send.args[0].Sym?
  }

  /** A send that `known_defining_method` turns into an item. */
  predicate IsDefiningSend(send: Node)
  {
    send.Send? && HasSymbolFirst(send)
    && (AttrTypeOf(send.methodName).Some? || PropTypeOf(send.methodName).Some?)
  }

  /**
   * A `prop`/`const` send with a symbol but no second argument: the source
   * indexes `args[1]` unchecked, which panics.
   */
  predicate Panics(send: Node)
  {
    send.Send? && HasSymbolFirst(send)
    && PropTypeOf(send.methodName).Some? && |send.args| < 2
  }

  /** A `sig` call, the only block call whose body is parsed as a signature. */
  predicate IsSigCall(call: Node)
  {
    call.Send? && call.methodName == "sig"
  }

  /** An item that is a faithful decoding of the node it records. */
  predicate WellFormed(item: NamedItem)
  {
    match item
    case ModuleItem(name, decl) => decl.Module? && decl.name == name
    case ClassItem(name, decl) => decl.Class? && decl.name == name
    case DefItem(decl, _) => decl.Def?
    case DefsItem(decl, _) => decl.Defs?
    case CasgnItem(decl, ty) => decl.Casgn? && ty.None?
    case AttrItem(attr, decl, sym, _) =>
      decl.Send? && HasSymbolFirst(decl) && sym == decl.args[0]
      && AttrTypeOf(decl.methodName) == Some(attr)
    case PropItem(prop, decl, sym, typeExpr) =>
      decl.Send? && HasSymbolFirst(decl) && |decl.args| >= 2
      && sym == decl.args[0] && typeExpr == decl.args[1]
      && PropTypeOf(decl.methodName) == Some(prop)
  }

  predicate AllWellFormed(items: seq<NamedItem>)
  {
    forall i :: 0 <= i < |items| ==> WellFormed(items[i])
  }

  /** The signature an item carries, if its kind carries one. */
  predicate HasSig(item: NamedItem)
  {
    (item.DefItem? || item.DefsItem? || item.AttrItem?) && item.sig.Some?
  }

  function Held(sig: Option<Sig>): nat
  {
    if sig.Some? then 1 else 0
  }

  // ---------------------------------------------------------------------
  // Reachability, panics and sizes

  /** The body `push_children` decodes when this item is popped, if any. */
  function PendingBody(item: NamedItem): (r: Option<Node>)
    ensures r.Some? ==> r.value < item.decl
  {
    match item
    case ClassItem(_, Class(_, _, Some(n))) => Some(n)
    case ModuleItem(_, Module(_, Some(n))) => Some(n)
    case _ => None
  }

  /**
   * No node the walk will decode (directly, through `Begin` statements or
   * through the bodies of classes and modules) is a send that panics.
   */
  predicate Safe(node: Node)
  {
    match node
    case Module(_, Some(b)) => Safe(b)
    case Class(_, _, Some(b)) => Safe(b)
    case Send(_, _, _) => !Panics(node)
    case Begin(stmts) => forall i :: 0 <= i < |stmts| ==> Safe(stmts[i])
    case _ => true
  }

  predicate SafeItem(item: NamedItem)
  {
    PendingBody(item).Some? ==> Safe(PendingBody(item).value)
  }

  predicate SafeStack(items: seq<NamedItem>)
  {
    forall i :: 0 <= i < |items| ==> SafeItem(items[i])
  }

  /** The number of items the walk eventually yields for this node, bodies included. */
  function Total(node: Node): nat
  {
    match node
    case Module(_, Some(b)) => 1 + Total(b)
    case Module(_, None) => 1
    case Class(_, _, Some(b)) => 1 + Total(b)
    case Class(_, _, None) => 1
    case Def(_, _) => 1
    case Defs(_, _, _) => 1
    case Casgn(_, _, _) => 1
    case Send(_, _, _) => if IsDefiningSend(node) then 1 else 0
    case Begin(stmts) => TotalSeq(stmts)
    case _ => 0
  }

  function TotalSeq(stmts: seq<Node>): nat
  {
    if stmts == [] then 0 else TotalSeq(stmts[..|stmts| - 1]) + Total(stmts[|stmts| - 1])
  }

  /** The number of `sig` blocks the walk eventually meets in this node, bodies included. */
  function SigTotal(node: Node): nat
  {
    match node
    case Module(_, Some(b)) => SigTotal(b)
    case Class(_, _, Some(b)) => SigTotal(b)
    case Begin(stmts) => SigTotalSeq(stmts)
    case Block(call, Some(_)) => if IsSigCall(call) then 1 else 0
    case _ => 0
  }

  function SigTotalSeq(stmts: seq<Node>): nat
  {
    if stmts == [] then 0 else SigTotalSeq(stmts[..|stmts| - 1]) + SigTotal(stmts[|stmts| - 1])
  }

  /** An item's share of the remaining walk: itself plus its unexpanded body. */
  function Weight(item: NamedItem): nat
  {
    1 + if PendingBody(item).Some? then Total(PendingBody(item).value) else 0
  }

  /** The `sig` blocks still waiting in an item's unexpanded body. */
  function SigWeight(item: NamedItem): nat
  {
    if PendingBody(item).Some? then SigTotal(PendingBody(item).value) else 0
  }

  function SigCount(item: NamedItem): nat
  {
    if HasSig(item) then 1 else 0
  }

  function SumOver(items: seq<NamedItem>, f: NamedItem -> nat): nat
  {
    if items == [] then 0 else SumOver(items[..|items| - 1], f) + f(items[|items| - 1])
  }

  lemma {:induction false} SumOverAppend(a: seq<NamedItem>, b: seq<NamedItem>, f: NamedItem -> nat)
    ensures SumOver(a + b, f) == SumOver(a, f) + SumOver(b, f)
    decreases |b|
  {
    if b == [] {
      assert a + b == a;
    } else {
      var b' := b[..|b| - 1];
      assert (a + b)[..|a + b| - 1] == a + b';
      SumOverAppend(a, b', f);
    }
  }

  lemma SumOverOne(x: NamedItem, f: NamedItem -> nat)
    ensures SumOver([x], f) == f(x)
  {
    assert [x][..0] == [];
  }

  /** Items still to be yielded from a stack: its termination measure. */
  function Remaining(items: seq<NamedItem>): nat
  {
    SumOver(items, Weight)
  }

  /** How many of these items carry a signature. */
  function SigsAttached(items: seq<NamedItem>): nat
  {
    SumOver(items, SigCount)
  }

  /** How many `sig` blocks wait in the unexpanded bodies on this stack. */
  function SigsPending(items: seq<NamedItem>): nat
  {
    SumOver(items, SigWeight)
  }

  // ---------------------------------------------------------------------
  // The specification functions

  /**
   * `known_defining_method`: the item a send defines, if any, and the slot
   * afterwards. Only the `attr_*` sends consume the pending signature.
   */
  function DefiningSend(send: Node, sig: Option<Sig>): (r: (Option<NamedItem>, Option<Sig>))
    requires send.Send? && !Panics(send)
    ensures r.0.Some? <==> IsDefiningSend(send)
    ensures r.0.Some? ==> WellFormed(r.0.value) && r.0.value.decl == send
    ensures r.0.Some? && AttrTypeOf(send.methodName).Some? ==>
              r.0.value.AttrItem? && r.0.value.sig == sig && r.1 == None
    ensures r.0.Some? && PropTypeOf(send.methodName).Some? ==>
              r.0.value.PropItem? && r.1 == sig
    ensures r.0.None? ==> r.1 == sig
  {
    if |send.args| < 1 then (None, sig)
    else if !send.args[0].Sym? then (None, sig)
    else
      var name := send.args[0];
      match send.methodName
      case "attr_reader" => (Some(AttrItem(Reader, send, name, sig)), None)
      case "attr_writer" => (Some(AttrItem(Writer, send, name, sig)), None)
      case "attr_accessor" => (Some(AttrItem(Accessor, send, name, sig)), None)
      case "prop" => (Some(PropItem(Prop, send, name, send.args[1])), sig)
      case "const" => (Some(PropItem(PropType.Const, send, name, send.args[1])), sig)
      case _ => (None, sig)
  }

  /** One item pushed, with the slot left as `sig`. */
  function Single(item: NamedItem, sig: Option<Sig>): (r: Effect)
    ensures r.items == [item] && r.sig == sig
    ensures Remaining(r.items) == Weight(item)
  {
    SumOverOne(item, Weight);
    Effect([item], sig)
  }

  /**
   * `push_next`: what decoding one node pushes and leaves in the slot.
   * Every item pushed is well formed, and the items account for exactly
   * `Total(node)` yields to come.
   */
  function Decode(p: SigParser, node: Node, sig: Option<Sig>): (r: Effect)
    requires Safe(node)
    ensures AllWellFormed(r.items) && SafeStack(r.items)
    ensures Remaining(r.items) == Total(node)
    decreases node
  {
    match node
    case Module(name, _) => Single(ModuleItem(name, node), None)
    case Class(name, _, _) => Single(ClassItem(name, node), None)
    case Def(_, _) => Single(DefItem(node, sig), None)
    case Defs(_, _, _) => Single(DefsItem(node, sig), None)
    case Casgn(_, _, _) => Single(CasgnItem(node, None), sig)
    case Send(_, _, _) =>
      var (item, sig') := DefiningSend(node, sig);
      if item.Some? then Single(item.value, sig') else Effect([], sig')
    case Begin(stmts) => DecodeSeq(p, stmts, sig)
    case Block(call, Some(body)) => if IsSigCall(call) then Effect([], p(body)) else Effect([], sig)
    case _ => Effect([], sig)
  }

  /** The statements of a `Begin`, decoded left to right with the slot threaded through. */
  function DecodeSeq(p: SigParser, stmts: seq<Node>, sig: Option<Sig>): (r: Effect)
    requires forall i :: 0 <= i < |stmts| ==> Safe(stmts[i])
    ensures AllWellFormed(r.items) && SafeStack(r.items)
    ensures Remaining(r.items) == TotalSeq(stmts)
    decreases stmts
  {
    if stmts == [] then Effect([], sig)
    else
      var front := DecodeSeq(p, stmts[..|stmts| - 1], sig);
      var last := Decode(p, stmts[|stmts| - 1], front.sig);
      SumOverAppend(front.items, last.items, Weight);
      Effect(front.items + last.items, last.sig)
  }

  /**
   * Signatures are conserved by decoding: those attached to the items
   * pushed, still pending in their bodies and left in the slot never exceed
   * the one pending before plus the `sig` blocks met.
   */
  lemma {:induction false} DecodeConservesSigs(p: SigParser, node: Node, sig: Option<Sig>)
    requires Safe(node)
    ensures var r := Decode(p, node, sig);
            SigsAttached(r.items) + SigsPending(r.items) + Held(r.sig) <= Held(sig) + SigTotal(node)
    decreases node
  {
    var r := Decode(p, node, sig);
    if |r.items| == 1 {
      SumOverOne(r.items[0], SigCount);
      SumOverOne(r.items[0], SigWeight);
    }
    match node
    case Begin(stmts) => DecodeSeqConservesSigs(p, stmts, sig);
    case _ =>
  }

  lemma {:induction false} DecodeSeqConservesSigs(p: SigParser, stmts: seq<Node>, sig: Option<Sig>)
    requires forall i :: 0 <= i < |stmts| ==> Safe(stmts[i])
    ensures var r := DecodeSeq(p, stmts, sig);
            SigsAttached(r.items) + SigsPending(r.items) + Held(r.sig) <= Held(sig) + SigTotalSeq(stmts)
    decreases stmts
  {
    if stmts != [] {
      var front := DecodeSeq(p, stmts[..|stmts| - 1], sig);
      var last := Decode(p, stmts[|stmts| - 1], front.sig);
      DecodeSeqConservesSigs(p, stmts[..|stmts| - 1], sig);
      DecodeConservesSigs(p, stmts[|stmts| - 1], front.sig);
      SumOverAppend(front.items, last.items, SigCount);
      SumOverAppend(front.items, last.items, SigWeight);
    }
  }

  /**
   * A module or class is pushed as one item and its body is left for later:
   * the item's pending body is the node's own body, and the slot is cleared.
   */
  lemma ContainerDeferred(p: SigParser, node: Node, sig: Option<Sig>)
    requires (node.Module? || node.Class?) && Safe(node)
    ensures var r := Decode(p, node, sig);
            |r.items| == 1 && r.items[0].decl == node && PendingBody(r.items[0]) == node.body
            && r.sig == None
  {
  }

  /**
   * A method definition takes whatever signature is pending and empties the
   * slot, so the next method finds nothing there.
   */
  lemma MethodTakesSig(p: SigParser, node: Node, sig: Option<Sig>)
    requires node.Def? || node.Defs?
    ensures var r := Decode(p, node, sig);
            |r.items| == 1 && r.items[0].decl == node && r.items[0].sig == sig
            && (HasSig(r.items[0]) <==> sig.Some?) && r.sig == None
  {
  }

  /** A constant assignment is pushed without a type and leaves the slot as it was. */
  lemma CasgnKeepsSlot(p: SigParser, node: Node, sig: Option<Sig>)
    requires node.Casgn?
    ensures var r := Decode(p, node, sig);
            r.items == [CasgnItem(node, None)] && r.sig == sig
  {
  }

  /** A `sig` block with a body pushes nothing and replaces the slot with its parsed body. */
  lemma SigBlockFillsSlot(p: SigParser, node: Node, sig: Option<Sig>)
    requires node.Block? && node.body.Some? && IsSigCall(node.call)
    ensures Decode(p, node, sig) == Effect([], p(node.body.value))
  {
  }

  /**
   * Every other node leaves stack and slot alone: symbols, constants,
   * unlisted kinds, blocks without a body or whose call is not `sig`, and
   * sends that define nothing.
   */
  lemma OtherNodesInert(p: SigParser, node: Node, sig: Option<Sig>)
    requires Safe(node)
    requires !(node.Module? || node.Class? || node.Def? || node.Defs? || node.Casgn? || node.Begin?)
    requires node.Block? ==> node.body.None? || !IsSigCall(node.call)
    requires node.Send? ==> !IsDefiningSend(node)
    ensures Decode(p, node, sig) == Effect([], sig)
  {
  }

  lemma AppendAssoc(a: seq<NamedItem>, b: seq<NamedItem>, c: seq<NamedItem>)
    ensures (a + b) + c == a + (b + c)
  {
  }

  /** Decoding one more statement extends the decoded prefix. */
  lemma DecodeSeqNext(p: SigParser, stmts: seq<Node>, i: nat, sig: Option<Sig>)
    requires i < |stmts| && forall j :: 0 <= j < |stmts| ==> Safe(stmts[j])
    ensures var done := DecodeSeq(p, stmts[..i], sig);
            var last := Decode(p, stmts[i], done.sig);
            DecodeSeq(p, stmts[..i + 1], sig) == Effect(done.items + last.items, last.sig)
  {
    assert stmts[..i + 1][..i] == stmts[..i];
  }

  /** Decoding one more statement at the end of a run of statements. */
  lemma DecodeSeqSnoc(p: SigParser, front: seq<Node>, x: Node, sig: Option<Sig>)
    requires forall i :: 0 <= i < |front| ==> Safe(front[i])
    requires Safe(x)
    ensures forall i :: 0 <= i < |front + [x]| ==> Safe((front + [x])[i])
    ensures var done := DecodeSeq(p, front, sig);
            var last := Decode(p, x, done.sig);
            DecodeSeq(p, front + [x], sig) == Effect(done.items + last.items, last.sig)
  {
    assert (front + [x])[..|front|] == front;
    assert forall i :: 0 <= i < |front + [x]| ==> (front + [x])[i] == if i < |front| then front[i] else x;
  }

  /**
   * Signature hand-off: a `sig` block directly followed by a method
   * definition gives that method the parsed signature and leaves the slot
   * empty, whatever the statements before it left pending.
   */
  lemma SigHandOff(p: SigParser, front: seq<Node>, call: Node, body: Node, d: Node, sig: Option<Sig>)
    requires forall i :: 0 <= i < |front| ==> Safe(front[i])
    requires IsSigCall(call) && (d.Def? || d.Defs?)
    ensures var stmts := front + [Block(call, Some(body)), d];
            (forall i :: 0 <= i < |stmts| ==> Safe(stmts[i]))
            && DecodeSeq(p, stmts, sig)
               == Effect(DecodeSeq(p, front, sig).items
                         + [if d.Def? then DefItem(d, p(body)) else DefsItem(d, p(body))], None)
  {
    var blk := Block(call, Some(body));
    var done := DecodeSeq(p, front, sig);
    var item := if d.Def? then DefItem(d, p(body)) else DefsItem(d, p(body));
    assert Decode(p, blk, done.sig) == Effect([], p(body));
    assert Decode(p, d, p(body)) == Effect([item], None);
    DecodeSeqSnoc(p, front, blk, sig);
    assert DecodeSeq(p, front + [blk], sig) == Effect(done.items, p(body)) by {
      assert done.items + [] == done.items;
    }
    DecodeSeqSnoc(p, front + [blk], d, sig);
    assert (front + [blk]) + [d] == front + [blk, d];
  }

  /**
   * `push_children`: a popped class or module has its body decoded now;
   * any other item pushes nothing and leaves the slot alone. What is pushed
   * is well formed and accounts for the item's share of the walk, less the
   * item itself.
   */
  function Expand(p: SigParser, item: NamedItem, sig: Option<Sig>): (r: Effect)
    requires SafeItem(item)
    ensures PendingBody(item).None? ==> r == Effect([], sig)
    ensures AllWellFormed(r.items) && SafeStack(r.items)
    ensures Remaining(r.items) + 1 == Weight(item)
  {
    match PendingBody(item)
    case Some(body) => Decode(p, body, sig)
    case None => Effect([], sig)
  }

  /**
   * `next`: on an empty stack, nothing and no change; otherwise the top
   * item, with the stack below it followed by whatever its body pushes.
   * Each step that yields shortens the remaining walk by exactly one.
   */
  function Step(p: SigParser, st: State): (r: (Option<NamedItem>, State))
    requires SafeStack(st.stack)
    ensures r.0.None? <==> st.stack == []
    ensures r.0.None? ==> r.1 == st
    ensures r.0.Some? ==> r.0.value == st.stack[|st.stack| - 1]
    ensures SafeStack(r.1.stack)
    ensures AllWellFormed(st.stack) ==> AllWellFormed(r.1.stack)
    ensures r.0.Some? ==> Remaining(r.1.stack) + 1 == Remaining(st.stack)
  {
    if st.stack == [] then (None, st)
    else
      var n := |st.stack|;
      var top := st.stack[n - 1];
      var below := st.stack[..n - 1];
      var e := Expand(p, top, st.sig);
      assert st.stack == below + [top];
      SumOverAppend(below, [top], Weight);
      SumOverAppend(below, e.items, Weight);
      (Some(top), State(below + e.items, e.sig))
  }

  /**
   * A count bound for one `next`: the signature the popped item carries,
   * plus those on the new stack, in pending bodies and in the slot, never
   * exceed the count before the step. (That a signature is taken by at
   * most one item is `MethodTakesSig` and `DefiningSend`: whatever takes
   * it empties the slot.)
   */
  lemma StepConservesSigs(p: SigParser, st: State)
    requires SafeStack(st.stack) && st.stack != []
    ensures var (item, next) := Step(p, st);
            SigCount(item.value) + SigsAttached(next.stack) + SigsPending(next.stack) + Held(next.sig)
            <= SigsAttached(st.stack) + SigsPending(st.stack) + Held(st.sig)
  {
    var n := |st.stack|;
    var top := st.stack[n - 1];
    var below := st.stack[..n - 1];
    var e := Expand(p, top, st.sig);
    assert st.stack == below + [top];
    if PendingBody(top).Some? {
      DecodeConservesSigs(p, PendingBody(top).value, st.sig);
    }
    SumOverOne(top, SigCount);
    SumOverOne(top, SigWeight);
    SumOverAppend(below, [top], SigCount);
    SumOverAppend(below, [top], SigWeight);
    SumOverAppend(below, e.items, SigCount);
    SumOverAppend(below, e.items, SigWeight);
  }

  /** Popping an item with no body to expand pushes nothing and leaves the slot alone. */
  lemma LeafPopsAlone(p: SigParser, below: seq<NamedItem>, top: NamedItem, sig: Option<Sig>)
    requires SafeStack(below) && PendingBody(top).None?
    ensures SafeStack(below + [top])
    ensures Step(p, State(below + [top], sig)) == (Some(top), State(below, sig))
  {
    assert SafeItem(top);
    assert forall i :: 0 <= i < |below + [top]| ==> (below + [top])[i] == if i < |below| then below[i] else top;
    assert (below + [top])[..|below|] == below;
    assert below + [] == below;
  }

  /** The state right after `Definitions::new(root)`: the root decoded once from an empty walker. */
  function Start(p: SigParser, root: Node): (r: State)
    requires Safe(root)
    ensures SafeStack(r.stack) && AllWellFormed(r.stack)
    ensures Remaining(r.stack) == Total(root)
  {
    var e := Decode(p, root, None);
    State(e.items, e.sig)
  }

  // ---------------------------------------------------------------------
  // The walker

  class Definitions {
    const parseSig: SigParser
    var stashedSig: Option<Sig>
    var context: seq<NamedItem>

    function Current(): State
      reads this
    {
      State(context, stashedSig)
    }

    /** Every pending item is well formed and no pending body can panic. */
    ghost predicate Valid()
      reads this
    {
      SafeStack(context) && AllWellFormed(context)
    }

    constructor (parseSig: SigParser, root: Node)
      requires Safe(root)
      ensures Valid() && this.parseSig == parseSig
      ensures Current() == Start(parseSig, root)
    {
      this.parseSig := parseSig;
      stashedSig := None;
      context := [];
      new;
      PushNext(root);
    }

    method PushNext(node: Node)
      requires Safe(node)
      modifies this
      ensures context == old(context) + Decode(parseSig, node, old(stashedSig)).items
      ensures stashedSig == Decode(parseSig, node, old(stashedSig)).sig
      decreases node
    {
      match node {
        case Module(name, _) =>
          stashedSig := None;
          context := context + [ModuleItem(name, node)];
        case Class(name, _, _) =>
          stashedSig := None;
          context := context + [ClassItem(name, node)];
        case Def(_, _) =>
          var sig := stashedSig;
          stashedSig := None;
          context := context + [DefItem(node, sig)];
        case Defs(_, _, _) =>
          var sig := stashedSig;
          stashedSig := None;
          context := context + [DefsItem(node, sig)];
        case Casgn(_, _, _) =>
          context := context + [CasgnItem(node, None)];
        case Send(_, _, _) =>
          var item := KnownDefiningMethod(node);
          if item.Some? {
            context := context + [item.value];
          }
        case Begin(stmts) =>
          assert stmts[..0] == [];
          for i := 0 to |stmts|
            invariant context == old(context) + DecodeSeq(parseSig, stmts[..i], old(stashedSig)).items
            invariant stashedSig == DecodeSeq(parseSig, stmts[..i], old(stashedSig)).sig
          {
            ghost var done := DecodeSeq(parseSig, stmts[..i], old(stashedSig));
            PushNext(stmts[i]);
            DecodeSeqNext(parseSig, stmts, i, old(stashedSig));
            ghost var last := Decode(parseSig, stmts[i], done.sig);
            AppendAssoc(old(context), done.items, last.items);
          }
          assert stmts[..|stmts|] == stmts;
          assert Decode(parseSig, node, old(stashedSig)) == DecodeSeq(parseSig, stmts, old(stashedSig));
        case Block(call, Some(body)) =>
          if !IsSigCall(call) {
            return;
          }
          stashedSig := parseSig(body);
        case _ =>
      }
    }

    method PushChildren(item: NamedItem)
      requires SafeItem(item)
      modifies this
      ensures context == old(context) + Expand(parseSig, item, old(stashedSig)).items
      ensures stashedSig == Expand(parseSig, item, old(stashedSig)).sig
    {
      match item {
        case ClassItem(_, Class(_, _, Some(n))) => PushNext(n);
        case ModuleItem(_, Module(_, Some(n))) => PushNext(n);
        case _ =>
      }
    }

    method KnownDefiningMethod(send: Node) returns (item: Option<NamedItem>)
      requires send.Send? && !Panics(send)
      modifies this`stashedSig
      ensures (item, stashedSig) == DefiningSend(send, old(stashedSig))
    {
      if |send.args| < 1 {
        return None;
      }
      if !send.args[0].Sym? {
        return None;
      }
      var name := send.args[0];
      match send.methodName {
        case "attr_reader" =>
          item := Some(AttrItem(Reader, send, name, stashedSig));
          stashedSig := None;
        case "attr_writer" =>
          item := Some(AttrItem(Writer, send, name, stashedSig));
          stashedSig := None;
        case "attr_accessor" =>
          item := Some(AttrItem(Accessor, send, name, stashedSig));
          stashedSig := None;
        case "prop" =>
          item := Some(PropItem(Prop, send, name, send.args[1]));
        case "const" =>
          item := Some(PropItem(PropType.Const, send, name, send.args[1]));
        case _ =>
          item := None;
      }
    }

    method Next() returns (item: Option<NamedItem>)
      requires Valid()
      modifies this
      ensures Valid()
      ensures (item, Current()) == Step(parseSig, old(Current()))
    {
      if context == [] {
        return None;
      }
      var top := context[|context| - 1];
      context := context[..|context| - 1];
      PushChildren(top);
      item := Some(top);
    }
  }
}
