/**
 * The whole enumeration of a `Definitions` iterator: what repeated calls of
 * `next` yield until it returns None, the order that results from popping
 * an item before expanding its body, and the laws that bound it (it
 * terminates after exactly `Remaining` items, and attaches no more
 * signatures than there are `sig` blocks).
 */
module Traversal {

  import opened Wrappers
  import opened RubyAst
  import opened Types
  import opened Definitions

  /** The sequence `next` yields from state `st` until it returns None, and the slot it leaves. */
  function Run(p: SigParser, st: State): (r: Effect)
    requires SafeStack(st.stack)
    ensures |r.items| == Remaining(st.stack)
    ensures AllWellFormed(st.stack) ==> AllWellFormed(r.items)
    decreases Remaining(st.stack)
  {
    if st.stack == [] then Effect([], st.sig)
    else
      var (item, next) := Step(p, st);
      var rest := Run(p, next);
      Effect([item.value] + rest.items, rest.sig)
  }

  /**
   * A count bound for the whole walk: the signatures it attaches, plus the
   * one it leaves in the slot, never exceed those already attached on the
   * stack, still to be met in pending bodies, and held in the slot.
   */
  lemma {:induction false} RunConservesSigs(p: SigParser, st: State)
    requires SafeStack(st.stack)
    ensures var r := Run(p, st);
            SigsAttached(r.items) + Held(r.sig)
            <= SigsAttached(st.stack) + SigsPending(st.stack) + Held(st.sig)
    decreases Remaining(st.stack)
  {
    if st.stack != [] {
      var (item, next) := Step(p, st);
      var rest := Run(p, next);
      RunConservesSigs(p, next);
      StepConservesSigs(p, st);
      SumOverOne(item.value, SigCount);
      SumOverAppend([item.value], rest.items, SigCount);
    }
  }

  /** One `next` on a non-empty stack: the top comes out and its body, if any, goes on. */
  lemma StepPops(p: SigParser, below: seq<NamedItem>, top: NamedItem, sig: Option<Sig>)
    requires SafeStack(below) && SafeItem(top)
    ensures SafeStack(below + [top])
    ensures var e := Expand(p, top, sig);
            Step(p, State(below + [top], sig)) == (Some(top), State(below + e.items, e.sig))
  {
    SafeStackAppend(below, [top]);
    assert (below + [top])[..|below|] == below;
  }

  /** The walk from a non-empty stack: its top, then the walk from what `next` leaves. */
  lemma RunPops(p: SigParser, below: seq<NamedItem>, top: NamedItem, sig: Option<Sig>)
    requires SafeStack(below) && SafeItem(top)
    ensures SafeStack(below + [top])
    ensures var e := Expand(p, top, sig);
            SafeStack(below + e.items)
            && Run(p, State(below + [top], sig))
               == Effect([top] + Run(p, State(below + e.items, e.sig)).items, Run(p, State(below + e.items, e.sig)).sig)
  {
    StepPops(p, below, top, sig);
  }

  function Reverse(s: seq<NamedItem>): (r: seq<NamedItem>)
    ensures |r| == |s|
  {
    if s == [] then [] else [s[|s| - 1]] + Reverse(s[..|s| - 1])
  }

  lemma ReverseSnoc(s: seq<NamedItem>, x: NamedItem)
    ensures Reverse(s + [x]) == [x] + Reverse(s)
  {
    assert (s + [x])[..|s|] == s;
  }

  /**
   * Items with no body to expand (everything but a class or module with a
   * body) come off the stack in reverse of the order they were pushed, and
   * leave the slot alone.
   */
  lemma {:induction false} LeavesComeOutReversed(p: SigParser, items: seq<NamedItem>, sig: Option<Sig>)
    requires forall i :: 0 <= i < |items| ==> PendingBody(items[i]).None?
    ensures SafeStack(items)
    ensures Run(p, State(items, sig)) == Effect(Reverse(items), sig)
    decreases |items|
  {
    if items != [] {
      var below := items[..|items| - 1];
      var top := items[|items| - 1];
      assert items == below + [top];
      LeavesComeOutReversed(p, below, sig);
      RunPops(p, below, top, sig);
      assert below + [] == below;
    }
  }

  /** A class or module alone on the stack: the container, then everything its body yields. */
  lemma ContainerAlone(p: SigParser, c: NamedItem, sig: Option<Sig>)
    requires SafeItem(c) && PendingBody(c).Some?
    ensures var body := Decode(p, PendingBody(c).value, sig);
            var inner := Run(p, State(body.items, body.sig));
            Run(p, State([c], sig)) == Effect([c] + inner.items, inner.sig)
  {
    var body := Decode(p, PendingBody(c).value, sig);
    var inner := Run(p, State(body.items, body.sig));
    assert [] + [c] == [c];
    ContainerFirst(p, [], c, sig);
    assert Run(p, State([], inner.sig)) == Effect([], inner.sig);
    assert [c] + inner.items + [] == [c] + inner.items;
  }

  /**
   * A container on top of another item whose body pushes nothing: it is
   * yielded, and the item below is walked from the slot that body left.
   */
  lemma EmptyBodyHandsDown(p: SigParser, a: NamedItem, b: NamedItem, body: Node, sig: Option<Sig>)
    requires SafeItem(a) && SafeItem(b) && PendingBody(b) == Some(body)
    requires Decode(p, body, sig).items == []
    ensures var lo := Run(p, State([a], Decode(p, body, sig).sig));
            Run(p, State([a, b], sig)) == Effect([b] + lo.items, lo.sig)
  {
    var body := Decode(p, PendingBody(b).value, sig);
    assert SafeStack([a]);
    assert [a] + [b] == [a, b];
    ContainerFirst(p, [a], b, sig);
    assert Run(p, State(body.items, body.sig)) == Effect([], body.sig);
    assert [b] + [] == [b];
  }

  /**
   * A class or module alone on the stack whose body yields only leaves: the
   * container, then those leaves in reverse of the order they were pushed,
   * and the slot the body left.
   */
  lemma ContainerOfLeaves(p: SigParser, c: NamedItem, sig: Option<Sig>, body: Effect)
    requires SafeItem(c) && PendingBody(c).Some?
    requires body == Decode(p, PendingBody(c).value, sig)
    requires forall i :: 0 <= i < |body.items| ==> PendingBody(body.items[i]).None?
    ensures Run(p, State([c], sig)) == Effect([c] + Reverse(body.items), body.sig)
  {
    LeavesComeOutReversed(p, body.items, body.sig);
    ContainerAlone(p, c, sig);
  }

  /**
   * Everything `Definitions::new(root)` followed by `next` until None
   * yields: exactly `Total(root)` well-formed items.
   */
  function Walk(p: SigParser, root: Node): (r: Effect)
    requires Safe(root)
    ensures |r.items| == Total(root)
    ensures AllWellFormed(r.items)
  {
    Run(p, Start(p, root))
  }

  /** The walk attaches no more signatures than the tree has `sig` blocks. */
  lemma WalkConservesSigs(p: SigParser, root: Node)
    requires Safe(root)
    ensures SigsAttached(Walk(p, root).items) <= SigTotal(root)
  {
    DecodeConservesSigs(p, root, None);
    RunConservesSigs(p, Start(p, root));
  }

  /** The tree nodes a run of items was decoded from, in order. */
  function Decls(items: seq<NamedItem>): (r: seq<Node>)
    ensures |r| == |items|
  {
    if items == [] then [] else [items[0].decl] + Decls(items[1..])
  }

  lemma {:induction false} DeclsAt(items: seq<NamedItem>)
    ensures forall i :: 0 <= i < |items| ==> Decls(items)[i] == items[i].decl
    decreases |items|
  {
    if items != [] {
      DeclsAt(items[1..]);
    }
  }

  /**
   * The order of the walk read off the tree alone, with no stack and no
   * slot: a module or class before its body, the statements of a `Begin`
   * from the last to the first, and one entry for each node that defines
   * something.
   */
  function Order(node: Node): seq<Node>
  {
    match node
    case Module(_, Some(b)) => [node] + Order(b)
    case Module(_, None) => [node]
    case Class(_, _, Some(b)) => [node] + Order(b)
    case Class(_, _, None) => [node]
    case Def(_, _) => [node]
    case Defs(_, _, _) => [node]
    case Casgn(_, _, _) => [node]
    case Send(_, _, _) => if IsDefiningSend(node) then [node] else []
    case Begin(stmts) => OrderSeq(stmts)
    case _ => []
  }

  function OrderSeq(stmts: seq<Node>): seq<Node>
  {
    if stmts == [] then [] else Order(stmts[|stmts| - 1]) + OrderSeq(stmts[..|stmts| - 1])
  }

  /** What an item accounts for once popped: itself, then the order of its body. */
  function ItemOrder(item: NamedItem): seq<Node>
  {
    [item.decl] + if PendingBody(item).Some? then Order(PendingBody(item).value) else []
  }

  /** What a stack accounts for: the top item's share first, the bottom item's last. */
  function StackOrder(items: seq<NamedItem>): seq<Node>
  {
    if items == [] then [] else ItemOrder(items[|items| - 1]) + StackOrder(items[..|items| - 1])
  }

  lemma {:induction false} StackOrderAppend(a: seq<NamedItem>, b: seq<NamedItem>)
    ensures StackOrder(a + b) == StackOrder(b) + StackOrder(a)
    decreases |b|
  {
    if b == [] {
      assert a + b == a;
    } else {
      var b' := b[..|b| - 1];
      assert (a + b)[..|a + b| - 1] == a + b';
      assert (a + b)[|a + b| - 1] == b[|b| - 1];
      StackOrderAppend(a, b');
    }
  }

  /** The items decoding pushes account for exactly the node's reference order, whatever the slot. */
  lemma {:induction false} DecodeOrder(p: SigParser, node: Node, sig: Option<Sig>)
    requires Safe(node)
    ensures StackOrder(Decode(p, node, sig).items) == Order(node)
    decreases node
  {
    match node
    case Module(name, _) => StackOrderOne(ModuleItem(name, node));
    case Class(name, _, _) => StackOrderOne(ClassItem(name, node));
    case Def(_, _) => StackOrderOne(DefItem(node, sig));
    case Defs(_, _, _) => StackOrderOne(DefsItem(node, sig));
    case Casgn(_, _, _) => StackOrderOne(CasgnItem(node, None));
    case Send(_, _, _) =>
      var (item, _) := DefiningSend(node, sig);
      if item.Some? {
        StackOrderOne(item.value);
      }
    case Begin(stmts) => DecodeSeqOrder(p, stmts, sig);
    case _ =>
  }

  lemma StackOrderOne(x: NamedItem)
    ensures StackOrder([x]) == ItemOrder(x)
  {
    assert [x][..0] == [];
  }

  lemma {:induction false} DecodeSeqOrder(p: SigParser, stmts: seq<Node>, sig: Option<Sig>)
    requires forall i :: 0 <= i < |stmts| ==> Safe(stmts[i])
    ensures StackOrder(DecodeSeq(p, stmts, sig).items) == OrderSeq(stmts)
    decreases stmts
  {
    if stmts != [] {
      var front := DecodeSeq(p, stmts[..|stmts| - 1], sig);
      var last := Decode(p, stmts[|stmts| - 1], front.sig);
      DecodeSeqOrder(p, stmts[..|stmts| - 1], sig);
      DecodeOrder(p, stmts[|stmts| - 1], front.sig);
      StackOrderAppend(front.items, last.items);
    }
  }

  /** A popped item accounts for itself, then for what expanding it pushes. */
  lemma ExpandOrder(p: SigParser, top: NamedItem, sig: Option<Sig>)
    requires SafeItem(top)
    ensures [top.decl] + StackOrder(Expand(p, top, sig).items) == ItemOrder(top)
  {
    if PendingBody(top).Some? {
      DecodeOrder(p, PendingBody(top).value, sig);
    }
  }

  /**
   * One `next` keeps the order: if `top` accounts for itself followed by
   * what it pushes, and what is yielded afterwards follows the new stack's
   * order, then `top` followed by it follows the old stack's order.
   */
  lemma PopOrder(below: seq<NamedItem>, top: NamedItem, pushed: seq<NamedItem>, rest: seq<NamedItem>)
    requires [top.decl] + StackOrder(pushed) == ItemOrder(top)
    requires Decls(rest) == StackOrder(below + pushed)
    ensures Decls([top] + rest) == StackOrder(below + [top])
  {
    DeclsCons(top, rest);
    StackOrderAppend(below, pushed);
    StackOrderSnoc(below, top);
    NodesAssoc([top.decl], StackOrder(pushed), StackOrder(below));
  }

  lemma NodesAssoc(a: seq<Node>, b: seq<Node>, c: seq<Node>)
    ensures a + (b + c) == (a + b) + c
  {
  }

  lemma DeclsCons(x: NamedItem, rest: seq<NamedItem>)
    ensures Decls([x] + rest) == [x.decl] + Decls(rest)
  {
    assert ([x] + rest)[1..] == rest;
  }

  lemma StackOrderSnoc(below: seq<NamedItem>, top: NamedItem)
    ensures StackOrder(below + [top]) == ItemOrder(top) + StackOrder(below)
  {
    assert (below + [top])[..|below|] == below;
  }

  /** The walk from any stack yields the nodes of its items in the stack's reference order. */
  lemma {:induction false} RunOrder(p: SigParser, st: State)
    requires SafeStack(st.stack)
    ensures Decls(Run(p, st).items) == StackOrder(st.stack)
    decreases Remaining(st.stack)
  {
    if st.stack != [] {
      var below := st.stack[..|st.stack| - 1];
      var top := st.stack[|st.stack| - 1];
      assert st == State(below + [top], st.sig);
      assert SafeStack(below) && SafeItem(top);
      var e := Expand(p, top, st.sig);
      StepPops(p, below, top, st.sig);
      RunOrder(p, State(below + e.items, e.sig));
      RunPops(p, below, top, st.sig);
      ExpandOrder(p, top, st.sig);
      PopOrder(below, top, e.items, Run(p, State(below + e.items, e.sig)).items);
    }
  }

  /**
   * The walk yields the tree's defining nodes in the reference order: each
   * container before its body, sibling statements last first. Which nodes
   * come out, and in what order, does not depend on the signatures.
   */
  lemma WalkOrder(p: SigParser, root: Node)
    requires Safe(root)
    ensures Decls(Walk(p, root).items) == Order(root)
    ensures |Order(root)| == Total(root)
    ensures forall i :: 0 <= i < |Order(root)| ==> Walk(p, root).items[i].decl == Order(root)[i]
  {
    DecodeOrder(p, root, None);
    RunOrder(p, Start(p, root));
    DeclsAt(Walk(p, root).items);
  }

  /**
   * The items on top of the stack, with everything their bodies produce,
   * are all yielded before any item below them; the slot they leave is
   * what the lower part starts from.
   */
  lemma {:induction false} RunSplit(p: SigParser, below: seq<NamedItem>, above: seq<NamedItem>, sig: Option<Sig>)
    requires SafeStack(below) && SafeStack(above)
    ensures SafeStack(below + above)
    ensures var hi := Run(p, State(above, sig));
            var lo := Run(p, State(below, hi.sig));
            Run(p, State(below + above, sig)) == Effect(hi.items + lo.items, lo.sig)
    decreases Remaining(above)
  {
    SafeStackAppend(below, above);
    if above == [] {
      assert below + above == below;
      var lo := Run(p, State(below, sig));
      assert [] + lo.items == lo.items;
    } else {
      var rest := above[..|above| - 1];
      var top := above[|above| - 1];
      var e := Expand(p, top, sig);
      assert above == rest + [top];
      assert below + above == (below + rest) + [top];
      SafeStackAppend(below, rest);
      StepPops(p, rest, top, sig);
      RunPops(p, rest, top, sig);
      RunPops(p, below + rest, top, sig);
      AppendAssoc(below, rest, e.items);
      RunSplit(p, below, rest + e.items, e.sig);
      var hi' := Run(p, State(rest + e.items, e.sig));
      var lo := Run(p, State(below, hi'.sig));
      AppendAssoc([top], hi'.items, lo.items);
    }
  }

  /**
   * A class or module is yielded before anything from its body; its body,
   * decoded only now with the slot as it is at that moment, is yielded in
   * full before anything below it on the stack.
   */
  lemma ContainerFirst(p: SigParser, below: seq<NamedItem>, c: NamedItem, sig: Option<Sig>)
    requires SafeStack(below) && SafeItem(c) && PendingBody(c).Some?
    ensures SafeStack(below + [c])
    ensures var body := Decode(p, PendingBody(c).value, sig);
            var inner := Run(p, State(body.items, body.sig));
            var lo := Run(p, State(below, inner.sig));
            Run(p, State(below + [c], sig)) == Effect([c] + inner.items + lo.items, lo.sig)
  {
    var body := Decode(p, PendingBody(c).value, sig);
    RunPops(p, below, c, sig);
    RunSplit(p, below, body.items, body.sig);
    var inner := Run(p, State(body.items, body.sig));
    var lo := Run(p, State(below, inner.sig));
    AppendAssoc([c], inner.items, lo.items);
  }

  /**
   * Sibling statements come out in reverse: when a `Begin` is split into
   * earlier statements `pre` and later ones `post`, everything `post`
   * produces (with all its bodies) is yielded before anything `pre`
   * produces.
   */
  lemma LaterSiblingsFirst(p: SigParser, below: seq<NamedItem>, pre: seq<Node>, post: seq<Node>, sig: Option<Sig>)
    requires SafeStack(below)
    requires forall i :: 0 <= i < |pre| ==> Safe(pre[i])
    requires forall i :: 0 <= i < |post| ==> Safe(post[i])
    ensures forall i :: 0 <= i < |pre + post| ==> Safe((pre + post)[i])
    ensures var all := DecodeSeq(p, pre + post, sig);
            var front := DecodeSeq(p, pre, sig);
            var back := DecodeSeq(p, post, front.sig);
            var later := Run(p, State(back.items, back.sig));
            var earlier := Run(p, State(below + front.items, later.sig));
            SafeStack(below + all.items)
            && Run(p, State(below + all.items, all.sig)) == Effect(later.items + earlier.items, earlier.sig)
  {
    var front := DecodeSeq(p, pre, sig);
    var back := DecodeSeq(p, post, front.sig);
    DecodeSeqAppend(p, pre, post, sig);
    assert below + (front.items + back.items) == (below + front.items) + back.items;
    SafeStackAppend(below, front.items);
    RunSplit(p, below + front.items, back.items, back.sig);
  }

  lemma SafeStackAppend(a: seq<NamedItem>, b: seq<NamedItem>)
    requires SafeStack(a) && SafeStack(b)
    ensures SafeStack(a + b)
  {
    forall i | 0 <= i < |a + b| ensures SafeItem((a + b)[i]) {
      if i >= |a| {
        assert (a + b)[i] == b[i - |a|];
      } else {
        assert (a + b)[i] == a[i];
      }
    }
  }

  /** Decoding two runs of statements in a row is decoding their concatenation. */
  lemma {:induction false} DecodeSeqAppend(p: SigParser, a: seq<Node>, b: seq<Node>, sig: Option<Sig>)
    requires forall i :: 0 <= i < |a| ==> Safe(a[i])
    requires forall i :: 0 <= i < |b| ==> Safe(b[i])
    ensures forall i :: 0 <= i < |a + b| ==> Safe((a + b)[i])
    ensures var x := DecodeSeq(p, a, sig);
            var y := DecodeSeq(p, b, x.sig);
            DecodeSeq(p, a + b, sig) == Effect(x.items + y.items, y.sig)
    decreases |b|
  {
    assert forall i :: 0 <= i < |a + b| ==> Safe((a + b)[i]) by {
      forall i | 0 <= i < |a + b| ensures Safe((a + b)[i]) {
        if i >= |a| {
          assert (a + b)[i] == b[i - |a|];
        } else {
          assert (a + b)[i] == a[i];
        }
      }
    }
    if b == [] {
      assert a + b == a;
    } else {
      var b' := b[..|b| - 1];
      assert (a + b)[..|a + b| - 1] == a + b';
      assert (a + b)[|a + b| - 1] == b[|b| - 1];
      assert forall i :: 0 <= i < |b'| ==> b'[i] == b[i];
      DecodeSeqAppend(p, a, b', sig);
      var x := DecodeSeq(p, a, sig);
      var y' := DecodeSeq(p, b', x.sig);
      var last := Decode(p, b[|b| - 1], y'.sig);
      AppendAssoc(x.items, y'.items, last.items);
    }
  }

  /** A `Begin` ending in a class pushes that class last, with the slot cleared. */
  lemma DecodeClassLast(p: SigParser, pre: seq<Node>, c: Node)
    requires c.Class? && (c.body.Some? ==> Safe(c.body.value))
    requires forall i :: 0 <= i < |pre| ==> Safe(pre[i])
    ensures Safe(Begin(pre + [c]))
    ensures Decode(p, Begin(pre + [c]), None)
            == Effect(DecodeSeq(p, pre, None).items + [ClassItem(c.name, c)], None)
  {
    assert Safe(c);
    assert [c][..0] == [];
    DecodeSeqAppend(p, pre, [c], None);
  }

  /**
   * A class is always walked from an empty slot: whatever statements (a
   * `sig` block among them) precede it in a `Begin`, the walk yields the
   * class and then exactly what walking its body alone would yield.
   */
  lemma ScopeReset(p: SigParser, pre: seq<Node>, c: Node)
    requires c.Class? && c.body.Some?
    requires Safe(c.body.value)
    requires forall i :: 0 <= i < |pre| ==> Safe(pre[i])
    ensures Safe(Begin(pre + [c]))
    ensures var w := Walk(p, c.body.value).items;
            var all := Walk(p, Begin(pre + [c])).items;
            |all| >= 1 + |w| && all[..1 + |w|] == [ClassItem(c.name, c)] + w
  {
    var item := ClassItem(c.name, c);
    var front := DecodeSeq(p, pre, None);
    DecodeClassLast(p, pre, c);
    var w := Walk(p, c.body.value);
    var rest := Run(p, State(front.items, w.sig)).items;
    var all := Walk(p, Begin(pre + [c])).items;
    assert all == ([item] + w.items) + rest by {
      assert PendingBody(item) == c.body;
      ContainerFirst(p, front.items, item, None);
    }
    assert all[..1 + |w.items|] == [item] + w.items;
  }

  /**
   * A `sig` block directly before a class or module, anywhere in a
   * statement list, contributes nothing: the container clears the slot
   * before any method can take the signature, so the list decodes, and the
   * walk runs, exactly as without the block.
   */
  lemma SigBeforeContainerDropped(p: SigParser, pre: seq<Node>, call: Node, body: Node, c: Node,
                                  post: seq<Node>, sig: Option<Sig>)
    requires IsSigCall(call) && (c.Class? || c.Module?) && Safe(c)
    requires forall i :: 0 <= i < |pre| ==> Safe(pre[i])
    requires forall i :: 0 <= i < |post| ==> Safe(post[i])
    ensures var with := pre + [Block(call, Some(body)), c] + post;
            var without := pre + [c] + post;
            (forall i :: 0 <= i < |with| ==> Safe(with[i]))
            && (forall i :: 0 <= i < |without| ==> Safe(without[i]))
            && DecodeSeq(p, with, sig) == DecodeSeq(p, without, sig)
  {
    SigBeforeContainerHead(p, pre, call, body, c, sig);
    DecodeSeqAppend(p, pre + [Block(call, Some(body)), c], post, sig);
    DecodeSeqAppend(p, pre + [c], post, sig);
  }

  /** The statements up to the container decode alike with or without the block. */
  lemma SigBeforeContainerHead(p: SigParser, pre: seq<Node>, call: Node, body: Node, c: Node, sig: Option<Sig>)
    requires IsSigCall(call) && (c.Class? || c.Module?) && Safe(c)
    requires forall i :: 0 <= i < |pre| ==> Safe(pre[i])
    ensures var with := pre + [Block(call, Some(body)), c];
            (forall i :: 0 <= i < |with| ==> Safe(with[i]))
            && (forall i :: 0 <= i < |pre + [c]| ==> Safe((pre + [c])[i]))
            && DecodeSeq(p, with, sig) == DecodeSeq(p, pre + [c], sig)
  {
    var blk := Block(call, Some(body));
    var front := DecodeSeq(p, pre, sig);
    var mid := DecodeSeq(p, pre + [blk], sig);
    assert mid.items == front.items by {
      assert Decode(p, blk, front.sig) == Effect([], p(body));
      DecodeSeqSnoc(p, pre, blk, sig);
      assert front.items + [] == front.items;
    }
    assert Decode(p, c, mid.sig) == Decode(p, c, front.sig) by {
      ContainerIgnoresSlot(p, c, mid.sig, front.sig);
    }
    DecodeSeqSnoc(p, pre + [blk], c, sig);
    DecodeSeqSnoc(p, pre, c, sig);
    assert (pre + [blk]) + [c] == pre + [blk, c];
  }

  /** Decoding a class or module does not look at the slot. */
  lemma ContainerIgnoresSlot(p: SigParser, c: Node, s1: Option<Sig>, s2: Option<Sig>)
    requires (c.Class? || c.Module?) && Safe(c)
    ensures Decode(p, c, s1) == Decode(p, c, s2)
  {
  }

  /** So a whole file walks the same with or without such a block. */
  lemma SigBeforeContainerWalk(p: SigParser, pre: seq<Node>, call: Node, body: Node, c: Node, post: seq<Node>)
    requires IsSigCall(call) && (c.Class? || c.Module?) && Safe(c)
    requires forall i :: 0 <= i < |pre| ==> Safe(pre[i])
    requires forall i :: 0 <= i < |post| ==> Safe(post[i])
    ensures Safe(Begin(pre + [Block(call, Some(body)), c] + post)) && Safe(Begin(pre + [c] + post))
    ensures Walk(p, Begin(pre + [Block(call, Some(body)), c] + post)) == Walk(p, Begin(pre + [c] + post))
  {
    SigBeforeContainerDropped(p, pre, call, body, c, post, None);
  }

  /**
   * The consumer's loop (`for f in defn`): pulling with `next` until None
   * collects exactly the walk, and leaves the walker exhausted.
   */
  method Collect(d: Definitions) returns (items: seq<NamedItem>)
    requires d.Valid()
    modifies d
    ensures items == Run(d.parseSig, old(d.Current())).items
    ensures d.context == [] && d.stashedSig == Run(d.parseSig, old(d.Current())).sig
  {
    items := [];
    while true
      invariant d.Valid()
      invariant items + Run(d.parseSig, d.Current()).items == Run(d.parseSig, old(d.Current())).items
      invariant Run(d.parseSig, d.Current()).sig == Run(d.parseSig, old(d.Current())).sig
      decreases Remaining(d.context)
    {
      ghost var before := d.Current();
      var item := d.Next();
      if item.None? {
        break;
      }
      AppendAssoc(items, [item.value], Run(d.parseSig, d.Current()).items);
      items := items + [item.value];
    }
  }
}
