/** The tkinter accessibility checker: a pylint checker that remembers which
    names the analysed file binds to tkinter and reports widget constructions
    that lack a text attribute (C9001) or a tab-order keyword (C9002). */
module A11yChecker {
  import opened Wrappers

  // ---------------------------------------------------------------------
  // Syntax the checker inspects
  // ---------------------------------------------------------------------

  /** One `name [as alias]` entry of an import statement. */
  datatype Alias = Alias(name: string, asname: Option<string>)
  {
    /** Python's `alias or fallback`: the alias when it is a non-empty
        string, otherwise the fallback. */
    function OrElse(fallback: string): string
    {
      if asname.Some? && asname.value != "" then asname.value else fallback
    }
  }

  /** Source text of an argument or keyword value; the checker never looks
      inside it. */
  datatype Expr = Expr(source: string)

  /** A keyword argument; `arg` is `None` for a `**kwargs` splat. */
  datatype Keyword = Keyword(arg: Option<string>, value: Expr)

  /** The callee of a call: a bare name, an attribute access, or any other
      expression (a call result, a subscript, a lambda, ...). */
  datatype Callee = Name(id: string) | Attr(recv: Callee, attrname: string) | OtherCallee

  datatype Call = Call(func: Callee, args: seq<Expr>, keywords: seq<Keyword>)

  /** The nodes the checker is handed, in visit order. */
  datatype Node =
    | Import(names: seq<Alias>)
    | ImportFrom(modname: string, fromNames: seq<Alias>)
    | CallNode(call: Call)
    | Assign
    | OtherNode

  // ---------------------------------------------------------------------
  // Messages and rule tables
  // ---------------------------------------------------------------------

  datatype MessageId = MissingTextAttribute | MissingTabIndex
  {
    function Code(): string
    {
      match this
      case MissingTextAttribute => "C9001"
      case MissingTabIndex => "C9002"
    }

    function Symbol(): string
    {
      match this
      case MissingTextAttribute => "missing-text-attribute"
      case MissingTabIndex => "missing-tab-index"
    }
  }

  /** What `add_message` records: the message and its `%s` argument. */
  datatype Msg = Msg(id: MessageId, widget: string)

  const TextRequiredWidgets: set<string> :=
    {"Button", "Label", "Checkbutton", "Radiobutton", "Menubutton"}

  const TabIndexWidgets: set<string> :=
    {"Button", "Entry", "Text", "Listbox", "Scrollbar", "Scale",
     "Checkbutton", "Radiobutton", "Menubutton", "Canvas"}

  const TextAttrs: set<string> := {"text", "title", "label"}

  const TabAttrs: set<string> := {"takefocus", "tabindex"}

  // ---------------------------------------------------------------------
  // Import tracking (specification)
  // ---------------------------------------------------------------------

  /** Names an `import ...` statement binds to the tkinter module: for each
      entry whose module is exactly `tkinter`, its alias or `tkinter`. */
  function ImportBindings(names: seq<Alias>): set<string>
  {
    if names == [] then {}
    else
      var last := names[|names| - 1];
      ImportBindings(names[..|names| - 1]) +
        (if last.name == "tkinter" then {last.OrElse("tkinter")} else {})
  }

  /** Names a `from M import ...` statement binds: every entry's alias or
      name, but only when M is exactly `tkinter`. */
  function ImportFromBindings(modname: string, names: seq<Alias>): set<string>
  {
    if modname != "tkinter" || names == [] then {}
    else
      ImportFromBindings(modname, names[..|names| - 1]) + {names[|names| - 1].OrElse(names[|names| - 1].name)}
  }

  lemma {:induction false} ImportBindingsMembership(names: seq<Alias>, x: string)
    ensures x in ImportBindings(names) <==>
      exists i :: 0 <= i < |names| && names[i].name == "tkinter" && names[i].OrElse("tkinter") == x
  {
    if names != [] {
      var init := names[..|names| - 1];
      ImportBindingsMembership(init, x);
      if x in ImportBindings(init) {
        var i :| 0 <= i < |init| && init[i].name == "tkinter" && init[i].OrElse("tkinter") == x;
        assert names[i] == init[i];
      }
      if exists i :: 0 <= i < |names| && names[i].name == "tkinter" && names[i].OrElse("tkinter") == x {
        var i :| 0 <= i < |names| && names[i].name == "tkinter" && names[i].OrElse("tkinter") == x;
        if i < |init| {
          assert init[i] == names[i];
        }
      }
    }
  }

  lemma {:induction false} ImportFromBindingsMembership(modname: string, names: seq<Alias>, x: string)
    ensures x in ImportFromBindings(modname, names) <==>
      modname == "tkinter" && exists i :: 0 <= i < |names| && names[i].OrElse(names[i].name) == x
  {
    if modname == "tkinter" && names != [] {
      var init := names[..|names| - 1];
      ImportFromBindingsMembership(modname, init, x);
      if x in ImportFromBindings(modname, init) {
        var i :| 0 <= i < |init| && init[i].OrElse(init[i].name) == x;
        assert names[i] == init[i];
      }
      if exists i :: 0 <= i < |names| && names[i].OrElse(names[i].name) == x {
        var i :| 0 <= i < |names| && names[i].OrElse(names[i].name) == x;
        if i < |init| {
          assert init[i] == names[i];
        }
      }
    }
  }

  /** `import tkinter.ttk` (or any module other than exactly `tkinter`)
      binds nothing. */
  lemma OnlyExactTkinterImportBinds(names: seq<Alias>)
    requires forall i :: 0 <= i < |names| ==> names[i].name != "tkinter"
    ensures ImportBindings(names) == {}
  {
    forall x ensures x !in ImportBindings(names) {
      ImportBindingsMembership(names, x);
    }
  }

  // ---------------------------------------------------------------------
  // Call classification
  // ---------------------------------------------------------------------

  /** `_is_tkinter_widget_call`. */
  predicate IsTkinterWidgetCall(imports: set<string>, func: Callee)
  {
    match func
    case Attr(recv, _) => recv.Name? && recv.id in imports
    case Name(id) => id in imports
    case OtherCallee => false
  }

  /** `_get_widget_name`: the attribute name, the bare name, or "". */
  function WidgetName(func: Callee): string
  {
    match func
    case Attr(_, attrname) => attrname
    case Name(id) => id
    case OtherCallee => ""
  }

  /** The two callee shapes that are classified, and no other. */
  lemma ClassifiedShapes(imports: set<string>, func: Callee)
    ensures IsTkinterWidgetCall(imports, func) <==>
      (exists id :: func == Name(id) && id in imports) ||
      (exists id, attr :: func == Attr(Name(id), attr) && id in imports)
  {
    if IsTkinterWidgetCall(imports, func) && func.Attr? {
      assert func == Attr(Name(func.recv.id), func.attrname);
    }
  }

  /** The `if not widget_name: return` guard of `visit_call` never fires
      for a classified call when no tracked name and no attribute name is
      empty, as is the case for every tree Python's parser produces. */
  lemma ClassifiedWidgetNameNonEmpty(imports: set<string>, func: Callee)
    requires "" !in imports
    requires func.Attr? ==> func.attrname != ""
    requires IsTkinterWidgetCall(imports, func)
    ensures WidgetName(func) != ""
  {
  }

  // ---------------------------------------------------------------------
  // Keyword inspection
  // ---------------------------------------------------------------------

  /** The early-return scan shared by `_has_text_attribute` and
      `_has_tab_index`: does some keyword carry one of `wanted` as its name? */
  function HasKeywordIn(keywords: seq<Keyword>, wanted: set<string>): (found: bool)
    ensures found <==>
      exists i :: 0 <= i < |keywords| && keywords[i].arg.Some? && keywords[i].arg.value in wanted
  {
    if keywords == [] then false
    else if keywords[0].arg.Some? && keywords[0].arg.value in wanted then true
    else
      var rest := HasKeywordIn(keywords[1..], wanted);
      assert forall i :: 1 <= i < |keywords| ==> keywords[i] == keywords[1..][i - 1];
      rest
  }

  /** `_has_text_attribute`. */
  predicate HasTextAttribute(call: Call)
  {
    HasKeywordIn(call.keywords, TextAttrs)
  }

  /** `_has_tab_index`. */
  predicate HasTabIndex(call: Call)
  {
    HasKeywordIn(call.keywords, TabAttrs)
  }

  /** The names written as keywords at a call (a `**kwargs` splat has none). */
  function KeywordNames(keywords: seq<Keyword>): set<string>
  {
    set i | 0 <= i < |keywords| && keywords[i].arg.Some? :: keywords[i].arg.value
  }

  /** Only the set of keyword names decides the scan. */
  lemma HasKeywordInByNames(keywords: seq<Keyword>, wanted: set<string>)
    ensures HasKeywordIn(keywords, wanted) <==> KeywordNames(keywords) * wanted != {}
  {
    if HasKeywordIn(keywords, wanted) {
      var i :| 0 <= i < |keywords| && keywords[i].arg.Some? && keywords[i].arg.value in wanted;
      assert keywords[i].arg.value in KeywordNames(keywords) * wanted;
    }
  }

  // ---------------------------------------------------------------------
  // Messages for one call (specification)
  // ---------------------------------------------------------------------

  /** The messages `visit_call` adds for `call`, given the names bound to
      tkinter when it is visited. */
  function CallMessages(imports: set<string>, call: Call): seq<Msg>
  {
    var classified := IsTkinterWidgetCall(imports, call.func) && WidgetName(call.func) != "";
    var w := WidgetName(call.func);
    (if classified && w in TextRequiredWidgets && !HasTextAttribute(call) then [Msg(MissingTextAttribute, w)] else []) +
    (if classified && w in TabIndexWidgets && !HasTabIndex(call) then [Msg(MissingTabIndex, w)] else [])
  }

  /** C9001 is reported exactly for classified text widgets without a
      text, title or label keyword. */
  lemma MissingTextExactly(imports: set<string>, call: Call)
    ensures (exists w :: Msg(MissingTextAttribute, w) in CallMessages(imports, call)) <==>
      IsTkinterWidgetCall(imports, call.func) && WidgetName(call.func) in TextRequiredWidgets &&
      forall i :: 0 <= i < |call.keywords| ==> call.keywords[i].arg !in {Some("text"), Some("title"), Some("label")}
  {
    var w := WidgetName(call.func);
    if IsTkinterWidgetCall(imports, call.func) && w in TextRequiredWidgets && !HasTextAttribute(call) {
      assert Msg(MissingTextAttribute, w) in CallMessages(imports, call);
    }
  }

  /** C9002 is reported exactly for classified interactive widgets without
      a takefocus or tabindex keyword. */
  lemma MissingTabExactly(imports: set<string>, call: Call)
    ensures (exists w :: Msg(MissingTabIndex, w) in CallMessages(imports, call)) <==>
      IsTkinterWidgetCall(imports, call.func) && WidgetName(call.func) in TabIndexWidgets &&
      forall i :: 0 <= i < |call.keywords| ==> call.keywords[i].arg !in {Some("takefocus"), Some("tabindex")}
  {
    var w := WidgetName(call.func);
    if IsTkinterWidgetCall(imports, call.func) && w in TabIndexWidgets && !HasTabIndex(call) {
      assert Msg(MissingTabIndex, w) in CallMessages(imports, call);
    }
  }

  /** At most two messages per call, C9001 before C9002, both naming the
      widget. */
  lemma CallMessagesShape(imports: set<string>, call: Call)
    ensures |CallMessages(imports, call)| <= 2
    ensures forall m :: m in CallMessages(imports, call) ==> m.widget == WidgetName(call.func)
    ensures |CallMessages(imports, call)| == 2 ==>
      CallMessages(imports, call)[0].id == MissingTextAttribute && CallMessages(imports, call)[1].id == MissingTabIndex
  {
  }

  /** Unclassified calls, and widgets in neither table, add nothing. */
  lemma SilentCalls(imports: set<string>, call: Call)
    requires !IsTkinterWidgetCall(imports, call.func) ||
      (WidgetName(call.func) !in TextRequiredWidgets && WidgetName(call.func) !in TabIndexWidgets)
    ensures CallMessages(imports, call) == []
  {
  }

  /** Positional arguments, keyword values, keyword order and `**kwargs`
      splats never change the verdict: only the keyword names do. */
  lemma OnlyKeywordNamesMatter(imports: set<string>, c1: Call, c2: Call)
    requires c1.func == c2.func
    requires KeywordNames(c1.keywords) == KeywordNames(c2.keywords)
    ensures CallMessages(imports, c1) == CallMessages(imports, c2)
  {
    HasKeywordInByNames(c1.keywords, TextAttrs);
    HasKeywordInByNames(c2.keywords, TextAttrs);
    HasKeywordInByNames(c1.keywords, TabAttrs);
    HasKeywordInByNames(c2.keywords, TabAttrs);
  }

  // ---------------------------------------------------------------------
  // The whole pass (specification)
  // ---------------------------------------------------------------------

  /** The checker's observable state: names bound to tkinter so far, and
      messages added so far. */
  datatype CheckerState = CheckerState(imports: set<string>, messages: seq<Msg>)

  /** The effect of visiting one node. */
  function Step(st: CheckerState, node: Node): CheckerState
  {
    match node
    case Import(names) => st.(imports := st.imports + ImportBindings(names))
    case ImportFrom(modname, names) => st.(imports := st.imports + ImportFromBindings(modname, names))
    case CallNode(call) => st.(messages := st.messages + CallMessages(st.imports, call))
    case Assign => st
    case OtherNode => st
  }

  /** Visiting `nodes` in order. */
  function Run(st: CheckerState, nodes: seq<Node>): CheckerState
    decreases |nodes|
  {
    if nodes == [] then st else Run(Step(st, nodes[0]), nodes[1..])
  }

  function CallCount(nodes: seq<Node>): nat
  {
    if nodes == [] then 0 else (if nodes[0].CallNode? then 1 else 0) + CallCount(nodes[1..])
  }

  /** Tracked names only grow; messages are only appended, at most two per
      call node; only call nodes add messages. */
  lemma {:induction false} RunMonotone(st: CheckerState, nodes: seq<Node>)
    ensures st.imports <= Run(st, nodes).imports
    ensures st.messages <= Run(st, nodes).messages
    ensures |Run(st, nodes).messages| <= |st.messages| + 2 * CallCount(nodes)
    decreases |nodes|
  {
    if nodes != [] {
      var next := Step(st, nodes[0]);
      if nodes[0].CallNode? {
        CallMessagesShape(st.imports, nodes[0].call);
      }
      RunMonotone(next, nodes[1..]);
    }
  }

  /** Visiting `a` then `b` is visiting `a + b`. */
  lemma {:induction false} RunAppend(st: CheckerState, a: seq<Node>, b: seq<Node>)
    ensures Run(st, a + b) == Run(Run(st, a), b)
    decreases |a|
  {
    if a == [] {
      assert a + b == b;
    } else {
      assert (a + b)[0] == a[0];
      assert (a + b)[1..] == a[1..] + b;
      RunAppend(Step(st, a[0]), a[1..], b);
    }
  }

  /** A call uses only the bindings of imports visited before it. */
  lemma {:induction false} RunImportsIgnoreCalls(st: CheckerState, nodes: seq<Node>)
    requires forall i :: 0 <= i < |nodes| ==> nodes[i].CallNode? || nodes[i].Assign? || nodes[i].OtherNode?
    ensures Run(st, nodes).imports == st.imports
    decreases |nodes|
  {
    if nodes != [] {
      RunImportsIgnoreCalls(Step(st, nodes[0]), nodes[1..]);
    }
  }

  // ---------------------------------------------------------------------
  // The checker object
  // ---------------------------------------------------------------------

  /** `TkinterA11yChecker`: `tkinter_imports` and the messages passed to
      `add_message`. */
  class Checker {
    var imports: set<string>
    var messages: seq<Msg>

    function State(): CheckerState
      reads this
    {
      CheckerState(imports, messages)
    }

    constructor ()
      ensures imports == {} && messages == []
    {
      imports := {};
      messages := [];
    }

    /** `visit_importfrom`. */
    method VisitImportFrom(modname: string, names: seq<Alias>)
      modifies this`imports
      ensures imports == old(imports) + ImportFromBindings(modname, names)
    {
      if modname == "tkinter" {
        var i := 0;
        while i < |names|
          invariant 0 <= i <= |names|
          invariant imports == old(imports) + ImportFromBindings(modname, names[..i])
        {
          assert names[..i + 1][..i] == names[..i];
          imports := imports + {names[i].OrElse(names[i].name)};
          i := i + 1;
        }
        assert names[..|names|] == names;
      }
    }

    /** `visit_import`. */
    method VisitImport(names: seq<Alias>)
      modifies this`imports
      ensures imports == old(imports) + ImportBindings(names)
    {
      var i := 0;
      while i < |names|
        invariant 0 <= i <= |names|
        invariant imports == old(imports) + ImportBindings(names[..i])
      {
        assert names[..i + 1][..i] == names[..i];
        if names[i].name == "tkinter" {
          imports := imports + {names[i].OrElse("tkinter")};
        }
        i := i + 1;
      }
      assert names[..|names|] == names;
    }

    /** `visit_call`. */
    method VisitCall(call: Call)
      modifies this`messages
      ensures messages == old(messages) + CallMessages(imports, call)
    {
      if !IsTkinterWidgetCall(imports, call.func) {
        return;
      }
      var widgetName := WidgetName(call.func);
      if widgetName == "" {
        return;
      }
      if widgetName in TextRequiredWidgets {
        if !HasTextAttribute(call) {
          messages := messages + [Msg(MissingTextAttribute, widgetName)];
        }
      }
      if widgetName in TabIndexWidgets {
        if !HasTabIndex(call) {
          messages := messages + [Msg(MissingTabIndex, widgetName)];
        }
      }
    }

    /** The host's dispatch of one node to its `visit_*` method;
        `visit_assign` does nothing. */
    method Visit(node: Node)
      modifies this
      ensures State() == Step(old(State()), node)
    {
      match node
      case Import(names) => VisitImport(names);
      case ImportFrom(modname, names) => VisitImportFrom(modname, names);
      case CallNode(call) => VisitCall(call);
      case Assign =>
      case OtherNode =>
    }

    /** Visiting a whole file's nodes in source order. */
    method VisitAll(nodes: seq<Node>)
      modifies this
      ensures State() == Run(old(State()), nodes)
    {
      var i := 0;
      while i < |nodes|
        invariant 0 <= i <= |nodes|
        invariant Run(old(State()), nodes) == Run(State(), nodes[i..])
      {
        assert nodes[i..][1..] == nodes[i + 1..];
        Visit(nodes[i]);
        i := i + 1;
      }
    }
  }
}
