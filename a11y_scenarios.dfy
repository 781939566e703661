/** The repository's lint inputs, as node sequences in visit order, with the
    messages the checker reports for them. */
module A11yScenarios {
  import opened Wrappers
  import opened A11yChecker

  function Bare(f: Callee, args: seq<Expr>): Node
  {
    CallNode(Call(f, args, []))
  }

  function TkAttr(alias: string, widget: string): Callee
  {
    Attr(Name(alias), widget)
  }

  function Kw(name: string, value: string): Keyword
  {
    Keyword(Some(name), Expr(value))
  }

  /** tests/test_imports.py, one function per numbered test; each
      assignment is visited before the call on its right-hand side. */
  function AliasImportTest(): seq<Node>
  {
    [ Import([Alias("tkinter", Some("tk"))]),
      Assign, Bare(TkAttr("tk", "Tk"), []),
      Assign, Bare(TkAttr("tk", "Button"), [Expr("root1")]) ]
  }

  function DirectImportTest(): seq<Node>
  {
    [ ImportFrom("tkinter", [Alias("Button", None), Alias("Entry", None), Alias("Label", None)]),
      Assign, Bare(Name("Button"), [Expr("None")]),
      Assign, Bare(Name("Entry"), [Expr("None")]),
      Assign, Bare(Name("Label"), [Expr("None")]) ]
  }

  function OtherAliasTest(): seq<Node>
  {
    [ Import([Alias("tkinter", Some("tkinter_module"))]),
      Assign, Bare(TkAttr("tkinter_module", "Button"), [Expr("None")]) ]
  }

  function AccessibleTest(): seq<Node>
  {
    [ Assign, CallNode(Call(TkAttr("tk", "Button"), [Expr("root1")], [Kw("text", "\"Submit\""), Kw("takefocus", "True")])),
      Assign, CallNode(Call(Name("Label"), [Expr("None")], [Kw("text", "\"Name:\"")])),
      Assign, CallNode(Call(Name("Entry"), [Expr("None")], [Kw("takefocus", "True")])) ]
  }

  const ImportStylesAfterTest1 := CheckerState({"tk"}, [Msg(MissingTextAttribute, "Button"), Msg(MissingTabIndex, "Button")])

  const ImportStylesAfterTest2 := CheckerState({"tk", "Button", "Entry", "Label"},
    ImportStylesAfterTest1.messages +
      [ Msg(MissingTextAttribute, "Button"), Msg(MissingTabIndex, "Button"),
        Msg(MissingTabIndex, "Entry"), Msg(MissingTextAttribute, "Label") ])

  const ImportStylesAfterTest3 := CheckerState(ImportStylesAfterTest2.imports + {"tkinter_module"},
    ImportStylesAfterTest2.messages + [Msg(MissingTextAttribute, "Button"), Msg(MissingTabIndex, "Button")])

  // The four blocks of tests/test_imports.py, each run from the state the
  // previous block leaves; `ImportStylesFile` joins them.

  lemma AliasImportTestEffect()
    ensures Run(CheckerState({}, []), AliasImportTest()) == ImportStylesAfterTest1
  {
  }

  lemma DirectImportTestEffect()
    ensures Run(ImportStylesAfterTest1, DirectImportTest()) == ImportStylesAfterTest2
  {
    var direct := [Alias("Button", None), Alias("Entry", None), Alias("Label", None)];
    assert direct[..1][..0] == [];
    assert ImportFromBindings("tkinter", direct[..1]) == {"Button"};
    assert direct[..2][..1] == direct[..1];
    assert ImportFromBindings("tkinter", direct[..2]) == {"Button", "Entry"};
    assert ImportFromBindings("tkinter", direct) == {"Button", "Entry", "Label"};
  }

  lemma OtherAliasTestEffect()
    ensures Run(ImportStylesAfterTest2, OtherAliasTest()) == ImportStylesAfterTest3
  {
  }

  lemma AccessibleTestEffect()
    ensures Run(ImportStylesAfterTest3, AccessibleTest()) == ImportStylesAfterTest3
  {
  }

  /** The whole of tests/test_imports.py, checked from a fresh checker: the
      messages its comments expect, in order, and the five names bound to
      tkinter; the accessible calls at the end add nothing. */
  lemma ImportStylesFile()
    ensures Run(CheckerState({}, []), AliasImportTest() + DirectImportTest() + OtherAliasTest() + AccessibleTest())
      == ImportStylesAfterTest3
  {
    var s0 := CheckerState({}, []);
    var a, b, c, d := AliasImportTest(), DirectImportTest(), OtherAliasTest(), AccessibleTest();
    AliasImportTestEffect();
    DirectImportTestEffect();
    OtherAliasTestEffect();
    AccessibleTestEffect();
    RunAppend(s0, a + b + c, d);
    RunAppend(s0, a + b, c);
    RunAppend(s0, a, b);
  }

  /** examples/bad_example.py, split at its comment blocks. */
  function BadExampleHead(): seq<Node>
  {
    [ Import([Alias("tkinter", Some("tk"))]),
      ImportFrom("tkinter", [Alias("ttk", None)]),
      Assign, Bare(TkAttr("tk", "Tk"), []),
      Assign, Bare(TkAttr("tk", "Button"), [Expr("root")]),
      Assign, Bare(TkAttr("tk", "Label"), [Expr("root")]) ]
  }

  function BadExampleBody(): seq<Node>
  {
    [ Assign, Bare(TkAttr("tk", "Entry"), [Expr("root")]),
      Assign, Bare(TkAttr("tk", "Checkbutton"), [Expr("root")]),
      Assign, Bare(TkAttr("tk", "Text"), [Expr("root")]) ]
  }

  function BadExampleTail(): seq<Node>
  {
    [ Assign, Bare(TkAttr("tk", "Listbox"), [Expr("root")]),
      Assign, Bare(TkAttr("tk", "Frame"), [Expr("root")]),
      OtherNode, Bare(TkAttr("root", "mainloop"), []) ]
  }

  const BadExampleAfterHead := CheckerState({"tk", "ttk"},
    [Msg(MissingTextAttribute, "Button"), Msg(MissingTabIndex, "Button"), Msg(MissingTextAttribute, "Label")])

  const BadExampleAfterBody := BadExampleAfterHead.(messages := BadExampleAfterHead.messages +
    [ Msg(MissingTabIndex, "Entry"), Msg(MissingTextAttribute, "Checkbutton"),
      Msg(MissingTabIndex, "Checkbutton"), Msg(MissingTabIndex, "Text") ])

  // The three parts of examples/bad_example.py, each run from the state the
  // previous part leaves; `BadExampleFile` joins them.

  lemma BadExampleHeadEffect()
    ensures Run(CheckerState({}, []), BadExampleHead()) == BadExampleAfterHead
  {
  }

  lemma BadExampleBodyEffect()
    ensures Run(BadExampleAfterHead, BadExampleBody()) == BadExampleAfterBody
  {
  }

  const BadExampleAfterTail := BadExampleAfterBody.(messages := BadExampleAfterBody.messages + [Msg(MissingTabIndex, "Listbox")])

  lemma BadExampleTailEffect()
    ensures Run(BadExampleAfterBody, BadExampleTail()) == BadExampleAfterTail
  {
  }

  /** The whole of examples/bad_example.py, checked from a fresh checker:
      eight messages in source order. The Button gets C9001 and also C9002,
      since it is in both tables; the Frame and `root.mainloop()` get none. */
  lemma BadExampleFile()
    ensures Run(CheckerState({}, []), BadExampleHead() + BadExampleBody() + BadExampleTail()) == BadExampleAfterTail
    ensures |BadExampleAfterTail.messages| == 8
  {
    var s0 := CheckerState({}, []);
    var a, b, c := BadExampleHead(), BadExampleBody(), BadExampleTail();
    BadExampleHeadEffect();
    BadExampleBodyEffect();
    BadExampleTailEffect();
    RunAppend(s0, a + b, c);
    RunAppend(s0, a, b);
  }
}
