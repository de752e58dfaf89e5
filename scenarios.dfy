/**
 * Concrete trees walked end to end: a module holding a class whose body
 * is a `sig` block and two methods, the repository's sample file, a `sig`
 * block handed across sibling class bodies, and sends that fail the
 * argument checks.
 */
module Scenarios {

  import opened Wrappers
  import opened RubyAst
  import opened Types
  import opened Definitions
  import opened Traversal

  /** `sig { <body> }` */
  function SigBlockOf(body: Node): Node
  {
    Block(Send(None, "sig", []), Some(body))
  }

  // module A            (any name node for A and B)
  //   class B
  //     sig { ... }     (any signature body)
  //     def foo; end    (any two method definitions)
  //     def bar; end
  //   end
  // end
  function ClassB(nameB: Node, sigBody: Node, foo: Node, bar: Node): Node
  {
    Class(nameB, None, Some(Begin([SigBlockOf(sigBody), foo, bar])))
  }

  /** The `sig` block hands its signature to `foo`, the first method after it. */
  lemma NestedHandOff(p: SigParser, sigBody: Node, foo: Node)
    requires foo.Def?
    ensures Safe(SigBlockOf(sigBody))
    ensures DecodeSeq(p, [SigBlockOf(sigBody), foo], None) == Effect([DefItem(foo, p(sigBody))], None)
  {
    var sb := SigBlockOf(sigBody);
    SigHandOff(p, [], Send(None, "sig", []), sigBody, foo, None);
    assert [] + [sb, foo] == [sb, foo];
  }

  /** The class body pushes `foo` (taking the signature) and then `bar` (finding the slot empty). */
  lemma NestedBodyDecodes(p: SigParser, sigBody: Node, foo: Node, bar: Node)
    requires foo.Def? && bar.Def?
    ensures var body := [SigBlockOf(sigBody), foo, bar];
            (forall i :: 0 <= i < |body| ==> Safe(body[i]))
            && DecodeSeq(p, body, None) == Effect([DefItem(foo, p(sigBody)), DefItem(bar, None)], None)
  {
    var sb := SigBlockOf(sigBody);
    NestedHandOff(p, sigBody, foo);
    assert Decode(p, bar, None) == Effect([DefItem(bar, None)], None);
    DecodeSeqSnoc(p, [sb, foo], bar, None);
    assert [sb, foo] + [bar] == [sb, foo, bar];
  }

  /** Walking the class alone: the class, then its body's items in reverse, the slot left empty. */
  lemma NestedClassRun(p: SigParser, nameB: Node, sigBody: Node, foo: Node, bar: Node)
    requires foo.Def? && bar.Def?
    ensures var c := ClassItem(nameB, ClassB(nameB, sigBody, foo, bar));
            SafeItem(c)
            && Run(p, State([c], None)) == Effect([c, DefItem(bar, None), DefItem(foo, p(sigBody))], None)
  {
    NestedBodyDecodes(p, sigBody, foo, bar);
    var c := ClassItem(nameB, ClassB(nameB, sigBody, foo, bar));
    var fooItem := DefItem(foo, p(sigBody));
    var barItem := DefItem(bar, None);
    ContainerOfLeaves(p, c, None, Effect([fooItem, barItem], None));
    assert Reverse([fooItem, barItem]) == [barItem, fooItem] by {
      assert [fooItem, barItem][..1] == [fooItem];
      assert [fooItem][..0] == [];
    }
  }

  /**
   * The module comes first, then the class, then the class body in reverse:
   * `bar` without a signature, then `foo` with the one parsed from the
   * block just before it.
   */
  lemma NestedOrder(p: SigParser, nameA: Node, nameB: Node, sigBody: Node, foo: Node, bar: Node)
    requires foo.Def? && bar.Def?
    ensures var classB := ClassB(nameB, sigBody, foo, bar);
            var moduleA := Module(nameA, Some(classB));
            Safe(moduleA)
            && Walk(p, moduleA).items
               == [ModuleItem(nameA, moduleA), ClassItem(nameB, classB), DefItem(bar, None), DefItem(foo, p(sigBody))]
  {
    NestedClassRun(p, nameB, sigBody, foo, bar);
    var classB := ClassB(nameB, sigBody, foo, bar);
    var moduleA := Module(nameA, Some(classB));
    var m := ModuleItem(nameA, moduleA);
    assert Decode(p, classB, None) == Effect([ClassItem(nameB, classB)], None);
    ContainerAlone(p, m, None);
  }

  /** The same walk driven through the class by the iteration loop, which leaves the walker empty. */
  method CollectNested(p: SigParser, nameA: Node, nameB: Node, sigBody: Node, foo: Node, bar: Node)
    returns (items: seq<NamedItem>)
    requires foo.Def? && bar.Def?
    ensures var classB := ClassB(nameB, sigBody, foo, bar);
            var moduleA := Module(nameA, Some(classB));
            items == [ModuleItem(nameA, moduleA), ClassItem(nameB, classB), DefItem(bar, None), DefItem(foo, p(sigBody))]
  {
    NestedOrder(p, nameA, nameB, sigBody, foo, bar);
    var d := new Definitions(p, Module(nameA, Some(ClassB(nameB, sigBody, foo, bar))));
    items := Collect(d);
  }

  // The repository's sample file:
  //
  //   module Opus::Foo                  (any name nodes for the module and class)
  //     class Bar
  //       X = 5                         (any constant assignment)
  //       sig { void }                  (any two signature bodies)
  //       def self.do_the_thing; end    (any singleton method definition)
  //       sig { params(x: Integer).returns(Integer) }
  //       def add_one(x); x + 1; end    (any method definition)
  //       attr_reader :foo
  //       const :bar, Integer           (any type expression)
  //     end
  //   end

  function AttrReaderOf(attrName: string): Node
  {
    Send(None, "attr_reader", [Sym(attrName)])
  }

  function ConstOf(propName: string, typeExpr: Node): Node
  {
    Send(None, "const", [Sym(propName), typeExpr])
  }

  /** The first five statements of the sample class: up to the second method definition. */
  function SampleHead(x: Node, sig1: Node, thing: Node, sig2: Node, addOne: Node): seq<Node>
  {
    [x, SigBlockOf(sig1), thing, SigBlockOf(sig2), addOne]
  }

  function SampleStatements(x: Node, sig1: Node, thing: Node, sig2: Node, addOne: Node,
                            attrName: string, propName: string, typeExpr: Node): seq<Node>
  {
    SampleHead(x, sig1, thing, sig2, addOne) + [AttrReaderOf(attrName), ConstOf(propName, typeExpr)]
  }

  /** The assignment takes no signature; the first `sig` goes to `do_the_thing`. */
  lemma SampleFirstHandOff(p: SigParser, x: Node, sig1: Node, thing: Node)
    requires x.Casgn? && thing.Defs?
    ensures Safe(x) && Safe(SigBlockOf(sig1)) && Safe(thing)
    ensures DecodeSeq(p, [x, SigBlockOf(sig1), thing], None)
            == Effect([CasgnItem(x, None), DefsItem(thing, p(sig1))], None)
  {
    assert Decode(p, x, None) == Effect([CasgnItem(x, None)], None);
    assert DecodeSeq(p, [x], None) == Effect([CasgnItem(x, None)], None) by {
      DecodeSeqSnoc(p, [], x, None);
      assert [] + [x] == [x];
    }
    SigHandOff(p, [x], Send(None, "sig", []), sig1, thing, None);
    assert [x] + [SigBlockOf(sig1), thing] == [x, SigBlockOf(sig1), thing];
  }

  /** The second `sig` goes to `add_one`. */
  lemma SampleSecondHandOff(p: SigParser, x: Node, sig1: Node, thing: Node, sig2: Node, addOne: Node)
    requires x.Casgn? && thing.Defs? && addOne.Def?
    ensures var head := SampleHead(x, sig1, thing, sig2, addOne);
            (forall i :: 0 <= i < |head| ==> Safe(head[i]))
            && DecodeSeq(p, head, None)
               == Effect([CasgnItem(x, None), DefsItem(thing, p(sig1)), DefItem(addOne, p(sig2))], None)
  {
    var front := [x, SigBlockOf(sig1), thing];
    SampleFirstHandOff(p, x, sig1, thing);
    SigHandOff(p, front, Send(None, "sig", []), sig2, addOne, None);
    assert front + [SigBlockOf(sig2), addOne] == SampleHead(x, sig1, thing, sig2, addOne);
  }

  /** The reader finds the slot empty after `add_one` took the signature. */
  lemma SampleReader(p: SigParser, x: Node, sig1: Node, thing: Node, sig2: Node, addOne: Node, attrName: string)
    requires x.Casgn? && thing.Defs? && addOne.Def?
    ensures var front := SampleHead(x, sig1, thing, sig2, addOne) + [AttrReaderOf(attrName)];
            (forall i :: 0 <= i < |front| ==> Safe(front[i]))
            && DecodeSeq(p, front, None)
               == Effect([CasgnItem(x, None), DefsItem(thing, p(sig1)), DefItem(addOne, p(sig2)),
                          AttrItem(Reader, AttrReaderOf(attrName), Sym(attrName), None)], None)
  {
    var attr := AttrReaderOf(attrName);
    SampleSecondHandOff(p, x, sig1, thing, sig2, addOne);
    assert Decode(p, attr, None) == Effect([AttrItem(Reader, attr, Sym(attrName), None)], None);
    DecodeSeqSnoc(p, SampleHead(x, sig1, thing, sig2, addOne), attr, None);
  }

  /** The whole class body; the `const` item takes no signature and leaves the slot as it was. */
  lemma SampleBodyDecodes(p: SigParser, x: Node, sig1: Node, thing: Node, sig2: Node, addOne: Node,
                          attrName: string, propName: string, typeExpr: Node)
    requires x.Casgn? && thing.Defs? && addOne.Def?
    ensures var body := SampleStatements(x, sig1, thing, sig2, addOne, attrName, propName, typeExpr);
            (forall i :: 0 <= i < |body| ==> Safe(body[i]))
            && DecodeSeq(p, body, None)
               == Effect([CasgnItem(x, None), DefsItem(thing, p(sig1)), DefItem(addOne, p(sig2)),
                          AttrItem(Reader, AttrReaderOf(attrName), Sym(attrName), None),
                          PropItem(PropType.Const, ConstOf(propName, typeExpr), Sym(propName), typeExpr)], None)
  {
    var front := SampleHead(x, sig1, thing, sig2, addOne) + [AttrReaderOf(attrName)];
    var cst := ConstOf(propName, typeExpr);
    SampleReader(p, x, sig1, thing, sig2, addOne, attrName);
    assert Decode(p, cst, None) == Effect([PropItem(PropType.Const, cst, Sym(propName), typeExpr)], None);
    DecodeSeqSnoc(p, front, cst, None);
    assert front + [cst] == SampleStatements(x, sig1, thing, sig2, addOne, attrName, propName, typeExpr);
  }

  lemma ReverseFive(i1: NamedItem, i2: NamedItem, i3: NamedItem, i4: NamedItem, i5: NamedItem)
    ensures Reverse([i1, i2, i3, i4, i5]) == [i5, i4, i3, i2, i1]
  {
    ReverseSnoc([], i1);
    assert [] + [i1] == [i1];
    ReverseSnoc([i1], i2);
    assert [i1] + [i2] == [i1, i2];
    ReverseSnoc([i1, i2], i3);
    assert [i1, i2] + [i3] == [i1, i2, i3];
    ReverseSnoc([i1, i2, i3], i4);
    assert [i1, i2, i3] + [i4] == [i1, i2, i3, i4];
    ReverseSnoc([i1, i2, i3, i4], i5);
    assert [i1, i2, i3, i4] + [i5] == [i1, i2, i3, i4, i5];
  }

  function SampleClass(nameC: Node, x: Node, sig1: Node, thing: Node, sig2: Node, addOne: Node,
                       attrName: string, propName: string, typeExpr: Node): Node
  {
    Class(nameC, None, Some(Begin(SampleStatements(x, sig1, thing, sig2, addOne, attrName, propName, typeExpr))))
  }

  /** Walking the class: the class, then its body from the last statement back to the first. */
  lemma SampleClassRun(p: SigParser, nameC: Node, x: Node, sig1: Node, thing: Node, sig2: Node, addOne: Node,
                       attrName: string, propName: string, typeExpr: Node)
    requires x.Casgn? && thing.Defs? && addOne.Def?
    ensures var c := ClassItem(nameC, SampleClass(nameC, x, sig1, thing, sig2, addOne, attrName, propName, typeExpr));
            SafeItem(c)
            && Run(p, State([c], None))
               == Effect([c, PropItem(PropType.Const, ConstOf(propName, typeExpr), Sym(propName), typeExpr),
                          AttrItem(Reader, AttrReaderOf(attrName), Sym(attrName), None),
                          DefItem(addOne, p(sig2)), DefsItem(thing, p(sig1)), CasgnItem(x, None)], None)
  {
    var c := ClassItem(nameC, SampleClass(nameC, x, sig1, thing, sig2, addOne, attrName, propName, typeExpr));
    var i1 := CasgnItem(x, None);
    var i2 := DefsItem(thing, p(sig1));
    var i3 := DefItem(addOne, p(sig2));
    var i4 := AttrItem(Reader, AttrReaderOf(attrName), Sym(attrName), None);
    var i5 := PropItem(PropType.Const, ConstOf(propName, typeExpr), Sym(propName), typeExpr);
    SampleBodyDecodes(p, x, sig1, thing, sig2, addOne, attrName, propName, typeExpr);
    ContainerOfLeaves(p, c, None, Effect([i1, i2, i3, i4, i5], None));
    ReverseFive(i1, i2, i3, i4, i5);
  }

  /**
   * The sample file's walk: module, class, then the class body in reverse,
   * each method carrying the signature written just above it.
   */
  lemma SampleOrder(p: SigParser, nameM: Node, nameC: Node, x: Node, sig1: Node, thing: Node, sig2: Node,
                    addOne: Node, attrName: string, propName: string, typeExpr: Node)
    requires x.Casgn? && thing.Defs? && addOne.Def?
    ensures var bar := SampleClass(nameC, x, sig1, thing, sig2, addOne, attrName, propName, typeExpr);
            var foo := Module(nameM, Some(bar));
            Safe(foo)
            && Walk(p, foo).items
               == [ModuleItem(nameM, foo), ClassItem(nameC, bar),
                   PropItem(PropType.Const, ConstOf(propName, typeExpr), Sym(propName), typeExpr),
                   AttrItem(Reader, AttrReaderOf(attrName), Sym(attrName), None),
                   DefItem(addOne, p(sig2)), DefsItem(thing, p(sig1)), CasgnItem(x, None)]
  {
    var bar := SampleClass(nameC, x, sig1, thing, sig2, addOne, attrName, propName, typeExpr);
    var foo := Module(nameM, Some(bar));
    var m := ModuleItem(nameM, foo);
    var c := ClassItem(nameC, bar);
    SampleClassRun(p, nameC, x, sig1, thing, sig2, addOne, attrName, propName, typeExpr);
    var inner := Run(p, State([c], None));
    assert Start(p, foo) == State([m], None);
    assert Run(p, State([m], None)).items == [m] + inner.items by {
      assert Decode(p, bar, None) == Effect([c], None);
      ContainerAlone(p, m, None);
    }
  }

  // A `sig` block at the end of one class body, with an earlier sibling
  // class holding a method:
  //
  //   class A             (any name nodes for A and B)
  //     def x; end        (any method definition)
  //   end
  //   class B
  //     sig { ... }
  //   end
  //
  // The walker expands B first (it was pushed last), parks B's signature in
  // the slot, and nothing clears the slot before A's body is expanded.

  /** Class A walked from any slot: the class, then `x` carrying that slot's signature. */
  lemma LeakClassRun(p: SigParser, nameA: Node, x: Node, sig: Option<Sig>)
    requires x.Def?
    ensures var a := ClassItem(nameA, Class(nameA, None, Some(x)));
            SafeItem(a) && Run(p, State([a], sig)) == Effect([a, DefItem(x, sig)], None)
  {
    var a := ClassItem(nameA, Class(nameA, None, Some(x)));
    ContainerOfLeaves(p, a, sig, Effect([DefItem(x, sig)], None));
    ReverseSnoc([], DefItem(x, sig));
    assert [] + [DefItem(x, sig)] == [DefItem(x, sig)];
  }

  /** The two classes are pushed in source order, leaving the slot empty. */
  lemma LeakRootDecodes(p: SigParser, classA: Node, classB: Node)
    requires classA.Class? && classB.Class? && Safe(classA) && Safe(classB)
    ensures Safe(Begin([classA, classB]))
    ensures Decode(p, Begin([classA, classB]), None)
            == Effect([ClassItem(classA.name, classA), ClassItem(classB.name, classB)], None)
  {
    var a := ClassItem(classA.name, classA);
    var b := ClassItem(classB.name, classB);
    assert Decode(p, classA, None) == Effect([a], None);
    assert Decode(p, classB, None) == Effect([b], None);
    assert DecodeSeq(p, [classA], None) == Effect([a], None) by {
      DecodeSeqSnoc(p, [], classA, None);
      assert [] + [classA] == [classA];
    }
    assert DecodeSeq(p, [classA, classB], None) == Effect([a, b], None) by {
      DecodeSeqSnoc(p, [classA], classB, None);
      assert [classA] + [classB] == [classA, classB];
    }
  }

  /** B's body only fills the slot; A's body then attaches that signature to `x`. */
  lemma LeakStackRun(p: SigParser, nameA: Node, x: Node, nameB: Node, sigBody: Node)
    requires x.Def?
    ensures var a := ClassItem(nameA, Class(nameA, None, Some(x)));
            var b := ClassItem(nameB, Class(nameB, None, Some(SigBlockOf(sigBody))));
            SafeStack([a, b])
            && Run(p, State([a, b], None)).items == [b, a, DefItem(x, p(sigBody))]
  {
    var a := ClassItem(nameA, Class(nameA, None, Some(x)));
    var b := ClassItem(nameB, Class(nameB, None, Some(SigBlockOf(sigBody))));
    assert PendingBody(b) == Some(SigBlockOf(sigBody)) && SafeItem(b);
    assert Decode(p, SigBlockOf(sigBody), None) == Effect([], p(sigBody));
    var lo := Run(p, State([a], p(sigBody)));
    assert lo.items == [a, DefItem(x, p(sigBody))] by {
      LeakClassRun(p, nameA, x, p(sigBody));
    }
    assert Run(p, State([a, b], None)).items == [b] + lo.items by {
      EmptyBodyHandsDown(p, a, b, SigBlockOf(sigBody), None);
    }
  }

  /** The signature written in B's body ends up on the method of A. */
  lemma SigLeaksAcrossClasses(p: SigParser, nameA: Node, x: Node, nameB: Node, sigBody: Node)
    requires x.Def?
    ensures var classA := Class(nameA, None, Some(x));
            var classB := Class(nameB, None, Some(SigBlockOf(sigBody)));
            var root := Begin([classA, classB]);
            Safe(root)
            && Walk(p, root).items == [ClassItem(nameB, classB), ClassItem(nameA, classA), DefItem(x, p(sigBody))]
  {
    var classA := Class(nameA, None, Some(x));
    var classB := Class(nameB, None, Some(SigBlockOf(sigBody)));
    LeakRootDecodes(p, classA, classB);
    LeakStackRun(p, nameA, x, nameB, sigBody);
  }

  /**
   * Sends that fail the argument checks define nothing and leave the slot
   * alone: no arguments at all, or a first argument that is not a symbol.
   */
  lemma ArgumentChecks(p: SigParser, recv: Option<Node>, m: string, arg: Node, rest: seq<Node>, sig: Option<Sig>)
    requires !arg.Sym?
    ensures Safe(Send(recv, m, [])) && Decode(p, Send(recv, m, []), sig) == Effect([], sig)
    ensures Safe(Send(recv, m, [arg] + rest)) && Decode(p, Send(recv, m, [arg] + rest), sig) == Effect([], sig)
  {
  }

  /** `prop :name` or `const :name` without a type is a send the walker cannot survive. */
  lemma PropNeedsType(recv: Option<Node>, m: string, name: string)
    requires m == "prop" || m == "const"
    ensures !Safe(Send(recv, m, [Sym(name)]))
  {
  }
}
