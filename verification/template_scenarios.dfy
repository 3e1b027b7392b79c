/** The rendering scenarios of the template engine's unit tests, each
    stated as a lemma about the model: the template, the variables it is
    rendered against, the functions the kernel holds and the text (or the
    error) rendering produces. */
module TemplateScenarios {
  import opened Wrappers
  import opened Symbols
  import opened Blocks
  import opened QuoteScan
  import opened TemplateTokenizer
  import opened CodeTokenizer
  import opened ContextVariables
  import opened PluginExtensions
  import opened PromptTemplate

  /** Every test starts from variables holding only the input, a fresh
      GUID. */
  function Initial(guid: string): Variables {
    map[InputKey := guid]
  }

  // ---------------------------------------------------------------------
  // One function, `plugin.function`

  const TestFunction := KernelFunction("function", "", 0)
  const TestPlugins := [Plugin("plugin", "", [TestFunction])]
  const PluginFunctionId := FunctionId(Some("plugin"), "function")

  /** The function of the input and variable tests: F(input). */
  function WrapInput(f: KernelFunction, v: Variables): Result<Outcome, string> {
    Ok(Outcome("F(" + Get(v, InputKey) + ")", v))
  }

  /** The function of the asynchronous test: the input itself. */
  function EchoInput(f: KernelFunction, v: Variables): Result<Outcome, string> {
    Ok(Outcome(Get(v, InputKey), v))
  }

  lemma FindTestFunction()
    ensures TryGetFunction(TestPlugins, Some("plugin"), "function") == Some(TestFunction)
  {
    assert !IsWhiteSpace("plugin"[0]);
    assert TryGetPlugin(TestPlugins, "plugin") == Some(TestPlugins[0]);
    assert TestPlugins[0].functions[0] == TestFunction;
  }

  /** A call of `plugin.function` runs it on the context the call binds. */
  lemma CallTestFunction(e: CodeExpr, ctx: Variables, invoke: Invoker)
    requires e.id == PluginFunctionId
    requires invoke(TestFunction, CalleeContext(ctx, e)).Ok?
    ensures EvalSegment(Invoke(e), ctx, TestPlugins, invoke) == Ok(invoke(TestFunction, CalleeContext(ctx, e)).value.result)
  {
    FindTestFunction();
  }

  lemma FooText()
    ensures CanonicalText("foo-")
  {
    var s := "foo-";
    assert forall i :: 0 <= i < |s| ==> s[i] != '{';
  }

  lemma BazText()
    ensures CanonicalText("-baz")
  {
    var s := "-baz";
    assert forall i :: 0 <= i < |s| ==> s[i] != '{';
  }

  /** The shape of most tests: a call between `foo-` and `-baz`. */
  lemma RenderFooBaz(e: CodeExpr, code: string, ctx: Variables, plugins: seq<Plugin>, invoke: Invoker, result: string)
    requires ValidCode(e) && PrintCode(e) == code
    requires EvalSegment(Invoke(e), ctx, plugins, invoke) == Ok(result)
    ensures Render("foo-" + Braced(code) + "-baz", ctx, plugins, invoke) == Ok("foo-" + result + "-baz")
  {
    FooText();
    BazText();
    RenderCallInText("foo-", e, "-baz", ctx, plugins, invoke, result);
  }

  // ---------------------------------------------------------------------
  // foo-{{plugin.function}}-baz

  lemma PrintInputCall()
    ensures ValidCode(CodeExpr(PluginFunctionId, None, []))
    ensures PrintCode(CodeExpr(PluginFunctionId, None, [])) == "plugin.function"
  {
    PrintCodeBare(PluginFunctionId);
  }

  lemma InputTemplate()
    ensures "foo-{{plugin.function}}-baz" == "foo-" + Braced("plugin.function") + "-baz"
  {
    BracedSpelled("foo-", "plugin.function", "-baz");
  }

  lemma InputExpected()
    ensures "foo-" + ("F(" + "INPUT-BAR" + ")") + "-baz" == "foo-F(INPUT-BAR)-baz"
  {
  }

  /** A call without arguments receives the caller's input. */
  lemma ItRendersCodeUsingInput(guid: string)
    ensures Render("foo-{{plugin.function}}-baz", Update(Initial(guid), "INPUT-BAR"), TestPlugins, WrapInput)
         == Ok("foo-F(INPUT-BAR)-baz")
  {
    var ctx := Update(Initial(guid), "INPUT-BAR");
    var e := CodeExpr(PluginFunctionId, None, []);
    PrintInputCall();
    CalleeContextNoArgs(ctx, PluginFunctionId);
    CallTestFunction(e, ctx, WrapInput);
    assert Get(ctx, InputKey) == "INPUT-BAR";
    InputTemplate();
    InputExpected();
    RenderFooBaz(e, "plugin.function", ctx, TestPlugins, WrapInput, "F(" + "INPUT-BAR" + ")");
  }

  // ---------------------------------------------------------------------
  // foo-{{plugin.function $myVar}}-baz

  const MyVarCall := CodeExpr(PluginFunctionId, Some(VarRef("myVar")), [])

  lemma PrintMyVarCall()
    ensures ValidCode(MyVarCall)
    ensures PrintCode(MyVarCall) == "plugin.function $myVar"
  {
    PrintCodePositional(PluginFunctionId, VarRef("myVar"));
    assert PrintId(PluginFunctionId) == "plugin.function";
    assert PrintArg(VarRef("myVar")) == "$myVar";
  }

  lemma MyVarTemplate()
    ensures "foo-{{plugin.function $myVar}}-baz" == "foo-" + Braced("plugin.function $myVar") + "-baz"
  {
    BracedSpelled("foo-", "plugin.function $myVar", "-baz");
    MyVarSpelled();
  }

  lemma MyVarSpelled()
    ensures "foo-{{plugin.function $myVar}}-baz" == "foo-" + "{{" + "plugin.function $myVar" + "}}" + "-baz"
  {
  }

  /** The positional argument is the callee's input. */
  lemma MyVarInput(ctx: Variables)
    ensures Get(CalleeContext(ctx, MyVarCall), InputKey) == Get(ctx, "myVar")
  {
    CalleeContextGet(ctx, MyVarCall, InputKey);
  }

  lemma MyVarExpected()
    ensures "foo-" + ("F(" + "BAR" + ")") + "-baz" == "foo-F(BAR)-baz"
    ensures "foo-" + "BAR" + "-baz" == "foo-BAR-baz"
  {
  }

  /** A positional variable reference is bound to the callee's input. */
  lemma ItRendersCodeUsingVariables(guid: string)
    ensures Render("foo-{{plugin.function $myVar}}-baz", Set(Initial(guid), "myVar", "BAR"), TestPlugins, WrapInput)
         == Ok("foo-F(BAR)-baz")
  {
    var ctx := Set(Initial(guid), "myVar", "BAR");
    PrintMyVarCall();
    MyVarInput(ctx);
    CallTestFunction(MyVarCall, ctx, WrapInput);
    MyVarTemplate();
    MyVarExpected();
    RenderFooBaz(MyVarCall, "plugin.function $myVar", ctx, TestPlugins, WrapInput, "F(" + "BAR" + ")");
  }

  /** The same call, with a function that returns its input. */
  lemma ItRendersAsyncCodeUsingVariables(guid: string)
    ensures Render("foo-{{plugin.function $myVar}}-baz", Set(Initial(guid), "myVar", "BAR"), TestPlugins, EchoInput)
         == Ok("foo-BAR-baz")
  {
    var ctx := Set(Initial(guid), "myVar", "BAR");
    PrintMyVarCall();
    MyVarInput(ctx);
    CallTestFunction(MyVarCall, ctx, EchoInput);
    MyVarTemplate();
    MyVarExpected();
    RenderFooBaz(MyVarCall, "plugin.function $myVar", ctx, TestPlugins, EchoInput, "BAR");
  }

  // ---------------------------------------------------------------------
  // Named arguments

  /** A call with three or four named arguments prints them in order. */
  lemma PrintThreeNamed(id: FunctionId, p: Option<Arg>, a: NamedArg, b: NamedArg, c: NamedArg)
    ensures PrintCode(CodeExpr(id, p, [a, b, c]))
         == PrintCode(CodeExpr(id, p, [])) + " " + PrintNamedArg(a) + " " + PrintNamedArg(b) + " " + PrintNamedArg(c)
  {
    assert [] + [a] == [a];
    PrintCodeSnoc(id, p, [], a);
    assert [a] + [b] == [a, b];
    PrintCodeSnoc(id, p, [a], b);
    assert [a, b] + [c] == [a, b, c];
    PrintCodeSnoc(id, p, [a, b], c);
  }

  lemma PrintFourNamed(id: FunctionId, p: Option<Arg>, a: NamedArg, b: NamedArg, c: NamedArg, d: NamedArg)
    ensures PrintCode(CodeExpr(id, p, [a, b, c, d]))
         == PrintCode(CodeExpr(id, p, [])) + " " + PrintNamedArg(a) + " " + PrintNamedArg(b) + " " + PrintNamedArg(c)
            + " " + PrintNamedArg(d)
  {
    PrintThreeNamed(id, p, a, b, c);
    assert [a, b, c] + [d] == [a, b, c, d];
    PrintCodeSnoc(id, p, [a, b, c], d);
  }

  /** With distinct names, each of four named arguments binds its own
      value. */
  lemma FourBindings(ctx: Variables, id: FunctionId, a: NamedArg, b: NamedArg, c: NamedArg, d: NamedArg)
    requires a.name != b.name && a.name != c.name && a.name != d.name
    requires b.name != c.name && b.name != d.name && c.name != d.name
    ensures Get(CalleeContext(ctx, CodeExpr(id, None, [a, b, c, d])), a.name) == Resolve(ctx, a.value)
    ensures Get(CalleeContext(ctx, CodeExpr(id, None, [a, b, c, d])), b.name) == Resolve(ctx, b.value)
    ensures Get(CalleeContext(ctx, CodeExpr(id, None, [a, b, c, d])), c.name) == Resolve(ctx, c.value)
    ensures Get(CalleeContext(ctx, CodeExpr(id, None, [a, b, c, d])), d.name) == Resolve(ctx, d.value)
  {
    var e := CodeExpr(id, None, [a, b, c, d]);
    LastOfFour(a, b, c, d);
    CalleeContextGet(ctx, e, a.name);
    CalleeContextGet(ctx, e, b.name);
    CalleeContextGet(ctx, e, c.name);
    CalleeContextGet(ctx, e, d.name);
  }

  lemma LastOfFour(a: NamedArg, b: NamedArg, c: NamedArg, d: NamedArg)
    requires a.name != b.name && a.name != c.name && a.name != d.name
    requires b.name != c.name && b.name != d.name && c.name != d.name
    ensures LastBinding([a, b, c, d], a.name) == Some(a.value)
    ensures LastBinding([a, b, c, d], b.name) == Some(b.value)
    ensures LastBinding([a, b, c, d], c.name) == Some(c.value)
    ensures LastBinding([a, b, c, d], d.name) == Some(d.value)
  {
    assert [a, b, c, d][..3] == [a, b, c];
    assert [a, b, c][..2] == [a, b];
    assert [a, b][..1] == [a];
    assert LastBinding([a], a.name) == Some(a.value);
    assert LastBinding([a, b], a.name) == Some(a.value);
    assert LastBinding([a, b], b.name) == Some(b.value);
    assert LastBinding([a, b, c], a.name) == Some(a.value);
    assert LastBinding([a, b, c], b.name) == Some(b.value);
    assert LastBinding([a, b, c], c.name) == Some(c.value);
  }

  lemma EscapeOneApostrophe()
    ensures Escape("'") == "\\'"
  {
  }

  /** A literal holding one apostrophe escapes it and nothing else. */
  lemma EscapeApostrophe(x: string, y: string)
    requires forall i :: 0 <= i < |x| ==> x[i] != SglQuote && x[i] != EscapeChar
    requires forall i :: 0 <= i < |y| ==> y[i] != SglQuote && y[i] != EscapeChar
    ensures Escape(x + "'" + y) == x + "\\'" + y
  {
    EscapeAppend(x + "'", y);
    EscapeAppend(x, "'");
    EscapePlain(x);
    EscapePlain(y);
    EscapeOneApostrophe();
  }

  const InputArg := NamedArg("input", VarRef("input"))
  const AgeArg := NamedArg("age", Literal("42"))
  const SloganArg := NamedArg("slogan", Literal("Let's-a go!"))
  const DateArg := NamedArg("date", VarRef("someDate"))

  /** `plugin.function input=$input age='42' slogan='Let\'s-a go!' date=$someDate` */
  const NamedCall := CodeExpr(PluginFunctionId, None, [InputArg, AgeArg, SloganArg, DateArg])

  /** `plugin.function $input age='42' slogan='Let\'s-a go!' date=$someDate` */
  const ImplicitCall := CodeExpr(PluginFunctionId, Some(VarRef("input")), [AgeArg, SloganArg, DateArg])

  lemma SloganPieces()
    ensures "Let's-a go!" == "Let" + "'" + "s-a go!"
    ensures forall i :: 0 <= i < |"Let"| ==> "Let"[i] != SglQuote && "Let"[i] != EscapeChar
    ensures forall i :: 0 <= i < |"s-a go!"| ==> "s-a go!"[i] != SglQuote && "s-a go!"[i] != EscapeChar
  {
  }

  lemma SloganSpelled()
    ensures "slogan" + "=" + ("'" + ("Let" + "\\'" + "s-a go!") + "'") == "slogan='Let\\'s-a go!'"
  {
  }

  lemma PrintedSlogan()
    ensures PrintNamedArg(SloganArg) == "slogan='Let\\'s-a go!'"
  {
    SloganPieces();
    EscapeApostrophe("Let", "s-a go!");
    SloganSpelled();
  }

  lemma PrintedAge()
    ensures PrintNamedArg(AgeArg) == "age='42'"
  {
    EscapePlain("42");
  }

  lemma PrintedVariables()
    ensures PrintNamedArg(InputArg) == "input=$input"
    ensures PrintNamedArg(DateArg) == "date=$someDate"
    ensures PrintArg(VarRef("input")) == "$input"
    ensures PrintId(PluginFunctionId) == "plugin.function"
  {
  }

  lemma NamedArgsValid()
    ensures ValidNamedArg(InputArg) && ValidNamedArg(AgeArg) && ValidNamedArg(SloganArg) && ValidNamedArg(DateArg)
  {
  }

  /** The words of the named calls, each with the space before it. */
  lemma SpacedInput()
    ensures " input=$input" == " " + PrintNamedArg(InputArg)
    ensures " $input" == " " + PrintArg(VarRef("input"))
  {
    PrintedVariables();
  }

  lemma SpacedAge()
    ensures " age='42'" == " " + PrintNamedArg(AgeArg)
  {
    PrintedAge();
  }

  lemma SpacedSlogan()
    ensures " slogan='Let\\'s-a go!'" == " " + PrintNamedArg(SloganArg)
  {
    PrintedSlogan();
    SpacedSloganSpelled();
  }

  lemma SpacedSloganSpelled()
    ensures " slogan='Let\\'s-a go!'" == " " + "slogan='Let\\'s-a go!'"
  {
  }

  lemma SpacedDate()
    ensures " date=$someDate" == " " + PrintNamedArg(DateArg)
  {
    PrintedVariables();
  }

  /** A call printed from the printed forms of its pieces. */
  lemma PrintCallFrom(id: FunctionId, p: Option<Arg>, a: NamedArg, b: NamedArg, c: NamedArg,
                      w: string, s1: string, s2: string, s3: string)
    requires PrintCode(CodeExpr(id, p, [])) == w
    requires " " + PrintNamedArg(a) == s1 && " " + PrintNamedArg(b) == s2 && " " + PrintNamedArg(c) == s3
    ensures PrintCode(CodeExpr(id, p, [a, b, c])) == w + s1 + s2 + s3
  {
    PrintThreeNamed(id, p, a, b, c);
  }

  lemma PrintCallFromFour(id: FunctionId, p: Option<Arg>, a: NamedArg, b: NamedArg, c: NamedArg, d: NamedArg,
                          w: string, s1: string, s2: string, s3: string, s4: string)
    requires PrintCode(CodeExpr(id, p, [])) == w
    requires " " + PrintNamedArg(a) == s1 && " " + PrintNamedArg(b) == s2 && " " + PrintNamedArg(c) == s3
    requires " " + PrintNamedArg(d) == s4
    ensures PrintCode(CodeExpr(id, p, [a, b, c, d])) == w + s1 + s2 + s3 + s4
  {
    PrintFourNamed(id, p, a, b, c, d);
  }

  lemma ImplicitHead()
    ensures PrintCode(CodeExpr(PluginFunctionId, Some(VarRef("input")), [])) == "plugin.function" + " $input"
  {
    PrintCodePositional(PluginFunctionId, VarRef("input"));
    PrintedVariables();
    SpacedInput();
  }

  lemma ValidCalls()
    ensures ValidCode(NamedCall) && ValidCode(ImplicitCall)
  {
    NamedArgsValid();
    var ns := NamedCall.named;
    assert ns[0] == InputArg && ns[1] == AgeArg && ns[2] == SloganArg && ns[3] == DateArg;
    var ms := ImplicitCall.named;
    assert ms[0] == AgeArg && ms[1] == SloganArg && ms[2] == DateArg;
  }

  lemma PrintNamedCall()
    ensures ValidCode(NamedCall)
    ensures PrintCode(NamedCall)
         == "plugin.function" + " input=$input" + " age='42'" + " slogan='Let\\'s-a go!'" + " date=$someDate"
  {
    ValidCalls();
    PrintCodeBare(PluginFunctionId);
    PrintedVariables();
    SpacedInput();
    SpacedAge();
    SpacedSlogan();
    SpacedDate();
    PrintCallFromFour(PluginFunctionId, None, InputArg, AgeArg, SloganArg, DateArg,
                      "plugin.function", " input=$input", " age='42'", " slogan='Let\\'s-a go!'", " date=$someDate");
  }

  lemma PrintImplicitCall()
    ensures ValidCode(ImplicitCall)
    ensures PrintCode(ImplicitCall)
         == "plugin.function" + " $input" + " age='42'" + " slogan='Let\\'s-a go!'" + " date=$someDate"
  {
    ValidCalls();
    ImplicitHead();
    SpacedAge();
    SpacedSlogan();
    SpacedDate();
    PrintCallFrom(PluginFunctionId, Some(VarRef("input")), AgeArg, SloganArg, DateArg,
                  "plugin.function" + " $input", " age='42'", " slogan='Let\\'s-a go!'", " date=$someDate");
  }

  /** The value the test function returns, `[date] name (age): "slogan"`.
      Reading the date and writing it back as M/d/yyyy is formatDate; the
      age is read and written back unchanged. */
  function Formatted(formatDate: string -> string, v: Variables): string {
    "[" + formatDate(Get(v, "date")) + "] " + Get(v, "input") + " (" + Get(v, "age") + "): \"" + Get(v, "slogan") + "\""
  }

  function FormatArgs(formatDate: string -> string): Invoker {
    (f: KernelFunction, v: Variables) => Ok(Outcome(Formatted(formatDate, v), v))
  }

  /** The variables of the named-argument tests. */
  function NamedVariables(guid: string): Variables {
    Set(Set(Initial(guid), "input", "Mario"), "someDate", "2023-08-25T00:00:00")
  }

  /** What the callee of the named call sees: each named argument, read
      from the caller's variables or taken as written. */
  lemma NamedBindings(ctx: Variables)
    ensures Get(CalleeContext(ctx, NamedCall), "input") == Get(ctx, "input")
    ensures Get(CalleeContext(ctx, NamedCall), "age") == "42"
    ensures Get(CalleeContext(ctx, NamedCall), "slogan") == "Let's-a go!"
    ensures Get(CalleeContext(ctx, NamedCall), "date") == Get(ctx, "someDate")
  {
    FourBindings(ctx, PluginFunctionId, InputArg, AgeArg, SloganArg, DateArg);
  }

  /** `$input` written first binds exactly as `input=$input`. */
  lemma ImplicitIsNamed(ctx: Variables)
    ensures CalleeContext(ctx, ImplicitCall) == CalleeContext(ctx, NamedCall)
  {
    PositionalIsNamedInput(ctx, PluginFunctionId, VarRef("input"), ImplicitCall.named);
    assert [InputArg] + ImplicitCall.named == NamedCall.named;
  }

  /** The expected output, in the pieces the function writes. */
  lemma NamedExpected()
    ensures "foo-[8/25/2023] " == "foo-" + "[" + "8/25/2023" + "] "
    ensures " (42): \"" == " (" + "42" + "): \""
    ensures "\"-baz" == "\"" + "-baz"
  {
  }

  lemma NamedResult(guid: string, formatDate: string -> string)
    requires formatDate("2023-08-25T00:00:00") == "8/25/2023"
    ensures Formatted(formatDate, CalleeContext(NamedVariables(guid), NamedCall))
         == "[" + "8/25/2023" + "] " + "Mario" + " (" + "42" + "): \"" + "Let's-a go!" + "\""
  {
    var ctx := NamedVariables(guid);
    NamedBindings(ctx);
    assert Get(ctx, "input") == "Mario";
    assert Get(ctx, "someDate") == "2023-08-25T00:00:00";
  }

  /** The rendered text, regrouped into the pieces of the expected one. */
  lemma NamedOutput(r: string)
    requires r == "[" + "8/25/2023" + "] " + "Mario" + " (" + "42" + "): \"" + "Let's-a go!" + "\""
    ensures "foo-" + r + "-baz" == "foo-[8/25/2023] " + "Mario" + " (42): \"" + "Let's-a go!" + "\"-baz"
  {
    NamedExpected();
  }

  /** A call between `foo-{{` and `}}-baz`. */
  lemma FooBazSpelled(code: string)
    ensures "foo-{{" + code + "}}-baz" == "foo-" + Braced(code) + "-baz"
  {
    BracedSpelled("foo-", code, "-baz");
    assert "foo-{{" == "foo-" + "{{";
    assert "}}-baz" == "}}" + "-baz";
  }

  /** Named arguments are bound by name: variable references are read from
      the caller's variables and the quoted literal loses its escape.  The
      template is the test's, split at the spaces between its words. */
  lemma ItRendersCodeUsingNamedVariables(guid: string, formatDate: string -> string)
    requires formatDate("2023-08-25T00:00:00") == "8/25/2023"
    ensures Render("foo-{{" + ("plugin.function" + " input=$input" + " age='42'" + " slogan='Let\\'s-a go!'" + " date=$someDate") + "}}-baz",
                   NamedVariables(guid), TestPlugins, FormatArgs(formatDate))
         == Ok("foo-[8/25/2023] " + "Mario" + " (42): \"" + "Let's-a go!" + "\"-baz")
  {
    var ctx := NamedVariables(guid);
    var r := "[" + "8/25/2023" + "] " + "Mario" + " (" + "42" + "): \"" + "Let's-a go!" + "\"";
    PrintNamedCall();
    NamedResult(guid, formatDate);
    CallTestFunction(NamedCall, ctx, FormatArgs(formatDate));
    FooBazSpelled(PrintCode(NamedCall));
    NamedOutput(r);
    RenderFooBaz(NamedCall, PrintCode(NamedCall), ctx, TestPlugins, FormatArgs(formatDate), r);
  }

  /** The input given positionally, the other arguments by name. */
  lemma ItRendersCodeUsingImplicitInputAndNamedVariables(guid: string, formatDate: string -> string)
    requires formatDate("2023-08-25T00:00:00") == "8/25/2023"
    ensures Render("foo-{{" + ("plugin.function" + " $input" + " age='42'" + " slogan='Let\\'s-a go!'" + " date=$someDate") + "}}-baz",
                   NamedVariables(guid), TestPlugins, FormatArgs(formatDate))
         == Ok("foo-[8/25/2023] " + "Mario" + " (42): \"" + "Let's-a go!" + "\"-baz")
  {
    var ctx := NamedVariables(guid);
    var r := "[" + "8/25/2023" + "] " + "Mario" + " (" + "42" + "): \"" + "Let's-a go!" + "\"";
    PrintImplicitCall();
    ImplicitIsNamed(ctx);
    NamedResult(guid, formatDate);
    CallTestFunction(ImplicitCall, ctx, FormatArgs(formatDate));
    FooBazSpelled(PrintCode(ImplicitCall));
    NamedOutput(r);
    RenderFooBaz(ImplicitCall, PrintCode(ImplicitCall), ctx, TestPlugins, FormatArgs(formatDate), r);
  }

  // ---------------------------------------------------------------------
  // foo-{{function input=$input age=42 slogan='Let\'s-a go!' date=$someDate}}-baz

  lemma JoinFive(w0: string, w1: string, w2: string, w3: string, w4: string)
    ensures JoinSpace([w0, w1, w2, w3, w4]) == w0 + " " + w1 + " " + w2 + " " + w3 + " " + w4
  {
    assert [w0] + [w1] == [w0, w1];
    JoinSpaceSnoc([w0], w1);
    assert [w0, w1] + [w2] == [w0, w1, w2];
    JoinSpaceSnoc([w0, w1], w2);
    assert [w0, w1, w2] + [w3] == [w0, w1, w2, w3];
    JoinSpaceSnoc([w0, w1, w2], w3);
    assert [w0, w1, w2, w3] + [w4] == [w0, w1, w2, w3, w4];
    JoinSpaceSnoc([w0, w1, w2, w3], w4);
  }

  lemma BareWords(w0: string, a: NamedArg, name: string, v: string, b: NamedArg, c: NamedArg)
    ensures [w0] + BareArgWords(None, [a], name, v, PrintNamedArgs([b, c]))
         == [w0, PrintNamedArg(a), BareNamed(name, v), PrintNamedArg(b), PrintNamedArg(c)]
  {
    assert PositionalWords(None) == [];
    assert PrintNamedArgs([a]) == [PrintNamedArg(a)];
    assert PrintNamedArgs([b, c]) == [PrintNamedArg(b), PrintNamedArg(c)];
  }

  /** The code of the syntax-error test, from the printed forms of its
      words. */
  lemma BareCode(w0: string, a: NamedArg, name: string, v: string, b: NamedArg, c: NamedArg,
                 s1: string, s2: string, s3: string, s4: string)
    requires " " + PrintNamedArg(a) == s1 && " " + BareNamed(name, v) == s2
    requires " " + PrintNamedArg(b) == s3 && " " + PrintNamedArg(c) == s4
    ensures JoinSpace([w0] + BareArgWords(None, [a], name, v, PrintNamedArgs([b, c]))) == w0 + s1 + s2 + s3 + s4
  {
    BareWords(w0, a, name, v, b, c);
    JoinFive(w0, PrintNamedArg(a), BareNamed(name, v), PrintNamedArg(b), PrintNamedArg(c));
  }

  lemma SpacedBareAge()
    ensures " age=42" == " " + BareNamed("age", "42")
  {
  }

  const BareFunctionId := FunctionId(None, "function")

  lemma BareCallCode()
    ensures JoinSpace([PrintId(BareFunctionId)] + BareArgWords(None, [InputArg], "age", "42", PrintNamedArgs([SloganArg, DateArg])))
         == "function" + " input=$input" + " age=42" + " slogan='Let\\'s-a go!'" + " date=$someDate"
  {
    SpacedInput();
    SpacedBareAge();
    SpacedSlogan();
    SpacedDate();
    BareCode("function", InputArg, "age", "42", SloganArg, DateArg,
             " input=$input", " age=42", " slogan='Let\\'s-a go!'", " date=$someDate");
  }

  lemma BareCallValid()
    ensures ValidId(BareFunctionId)
    ensures forall i :: 0 <= i < |[InputArg]| ==> ValidNamedArg([InputArg][i])
    ensures ValidName("age") && BareValue("42") && ClosedWord("42")
    ensures PrintedWords(PrintNamedArgs([SloganArg, DateArg])) && ClosedWords(PrintNamedArgs([SloganArg, DateArg]))
  {
    NamedArgsValid();
    PlainPassesOver("42", AtBlank);
    PlainPassesOver("42", AtCloser);
    PrintNamedArgsPrinted([SloganArg, DateArg]);
    NamedArgsClosed([SloganArg, DateArg]);
  }

  /** A named argument without a quote or `$` aborts rendering with a
      syntax error, whatever the variables, the plugins and the functions:
      nothing is rendered and no function is looked up.  The template is
      the test's, split at the spaces between its words. */
  lemma ItHandlesSyntaxErrors(ctx: Variables, plugins: seq<Plugin>, invoke: Invoker)
    ensures Render("foo-{{" + ("function" + " input=$input" + " age=42" + " slogan='Let\\'s-a go!'" + " date=$someDate") + "}}-baz",
                   ctx, plugins, invoke)
         == Err(SyntaxError("Named argument values need to be prefixed with a quote or $."))
  {
    var code := JoinSpace([PrintId(BareFunctionId)] + BareArgWords(None, [InputArg], "age", "42", PrintNamedArgs([SloganArg, DateArg])));
    BareCallValid();
    FooText();
    BazText();
    RenderBareCall("foo-", BareFunctionId, None, [InputArg], "age", "42", PrintNamedArgs([SloganArg, DateArg]), "-baz", ctx, plugins, invoke);
    BareCallCode();
    FooBazSpelled(code);
  }

  // ---------------------------------------------------------------------
  // {{func1}} {{func2}} {{func3 $myVar}}

  const Func1 := KernelFunction("func1", "", 1)
  const Func2 := KernelFunction("func2", "", 2)
  const Func3 := KernelFunction("func3", "", 3)
  const IsolationPlugins := [Plugin("plugin", "", [Func1, Func2, Func3])]

  /** func1 updates its input and returns a constant, func2 sets myVar and
      returns its input, func3 returns myVar. */
  function IsolationFunctions(f: KernelFunction, v: Variables): Result<Outcome, string> {
    if f.handle == 1 then Ok(Outcome("F(OUTPUT-FOO)", Update(v, "foo")))
    else if f.handle == 2 then Ok(Outcome(Get(v, InputKey), Set(v, "myVar", "bar")))
    else Ok(Outcome(Get(v, "myVar"), v))
  }

  /** The variables of the isolation test. */
  function IsolationVariables(guid: string): Variables {
    Set(Update(Initial(guid), "BAR"), "myVar", "BAZ")
  }

  const Call1 := CodeExpr(FunctionId(None, "func1"), None, [])
  const Call2 := CodeExpr(FunctionId(None, "func2"), None, [])
  const Call3 := CodeExpr(FunctionId(None, "func3"), Some(VarRef("myVar")), [])

  /** In a kernel with one plugin, a name without a plugin finds the one
      function of that name. */
  lemma FindOnlyFunction(plugin: Plugin, f: KernelFunction)
    requires f in plugin.functions
    requires forall g :: g in plugin.functions && g.name == f.name ==> g == f
    ensures TryGetFunction([plugin], None, f.name) == Some(f)
  {
    var k :| 0 <= k < |plugin.functions| && plugin.functions[k] == f;
    assert PluginFunction([plugin][0], f.name).Some?;
  }

  lemma FindIsolationFunctions()
    ensures TryGetFunction(IsolationPlugins, None, "func1") == Some(Func1)
    ensures TryGetFunction(IsolationPlugins, None, "func2") == Some(Func2)
    ensures TryGetFunction(IsolationPlugins, None, "func3") == Some(Func3)
  {
    FindOnlyFunction(IsolationPlugins[0], Func1);
    FindOnlyFunction(IsolationPlugins[0], Func2);
    FindOnlyFunction(IsolationPlugins[0], Func3);
  }

  lemma IsolationVariablesHold(guid: string)
    ensures Get(IsolationVariables(guid), InputKey) == "BAR"
    ensures Get(IsolationVariables(guid), "myVar") == "BAZ"
  {
  }

  /** A call whose function is found and succeeds renders as its result. */
  lemma EvalFound(e: CodeExpr, ctx: Variables, plugins: seq<Plugin>, invoke: Invoker, f: KernelFunction, o: Outcome)
    requires TryGetFunction(plugins, e.id.pluginName, e.id.functionName) == Some(f)
    requires invoke(f, CalleeContext(ctx, e)) == Ok(o)
    ensures EvalSegment(Invoke(e), ctx, plugins, invoke) == Ok(o.result)
  {
  }

  /** func1 returns its constant. */
  lemma FirstResult(guid: string)
    ensures EvalSegment(Invoke(Call1), IsolationVariables(guid), IsolationPlugins, IsolationFunctions) == Ok("F(OUTPUT-FOO)")
  {
    var ctx := IsolationVariables(guid);
    FindIsolationFunctions();
    CalleeContextNoArgs(ctx, Call1.id);
    EvalFound(Call1, ctx, IsolationPlugins, IsolationFunctions, Func1, Outcome("F(OUTPUT-FOO)", Update(ctx, "foo")));
  }

  /** func2 reads the caller's input, not the one func1 set. */
  lemma SecondResult(guid: string)
    ensures EvalSegment(Invoke(Call2), IsolationVariables(guid), IsolationPlugins, IsolationFunctions) == Ok("BAR")
  {
    var ctx := IsolationVariables(guid);
    FindIsolationFunctions();
    CalleeContextNoArgs(ctx, Call2.id);
    IsolationVariablesHold(guid);
    EvalFound(Call2, ctx, IsolationPlugins, IsolationFunctions, Func2, Outcome("BAR", Set(ctx, "myVar", "bar")));
  }

  /** `func3 $myVar` binds its input and leaves myVar as the caller has it. */
  lemma Call3Context(ctx: Variables)
    ensures Get(CalleeContext(ctx, Call3), "myVar") == Get(ctx, "myVar")
  {
    CalleeContextGet(ctx, Call3, "myVar");
  }

  /** func3 reads the caller's myVar, not the one func2 set. */
  lemma ThirdResult(guid: string)
    ensures EvalSegment(Invoke(Call3), IsolationVariables(guid), IsolationPlugins, IsolationFunctions) == Ok("BAZ")
  {
    var ctx := IsolationVariables(guid);
    var c := CalleeContext(ctx, Call3);
    FindIsolationFunctions();
    Call3Context(ctx);
    IsolationVariablesHold(guid);
    EvalFound(Call3, ctx, IsolationPlugins, IsolationFunctions, Func3, Outcome("BAZ", c));
  }

  lemma PrintIsolationCalls()
    ensures ValidCode(Call1) && PrintCode(Call1) == "func1"
    ensures ValidCode(Call2) && PrintCode(Call2) == "func2"
    ensures ValidCode(Call3) && PrintCode(Call3) == "func3" + " $myVar"
  {
    PrintCodeBare(Call1.id);
    PrintCodeBare(Call2.id);
    PrintCodePositional(Call3.id, VarRef("myVar"));
  }

  lemma SpaceText()
    ensures CanonicalText(" ")
  {
  }

  lemma IsolationSpelled(c1: string, c2: string, c3: string)
    requires c1 == "func1" && c2 == "func2" && c3 == "func3" + " $myVar"
    ensures "{{func1}}" + " {{func2}}" + " {{func3 $myVar}}" == "" + Braced(c1) + (" " + Braced(c2) + (" " + Braced(c3) + ""))
  {
    BracedSpelled("", c1, "");
    BracedSpelled(" ", c2, "");
    BracedSpelled(" ", c3, "");
    assert "{{func1}}" == "" + "{{" + "func1" + "}}" + "";
    assert " {{func2}}" == " " + "{{" + "func2" + "}}" + "";
    assert " {{func3 $myVar}}" == " " + "{{" + ("func3" + " $myVar") + "}}" + "";
  }

  lemma IsolationExpected()
    ensures "" + "F(OUTPUT-FOO)" + (" " + "BAR" + (" " + "BAZ" + "")) == "F(OUTPUT-FOO) BAR BAZ"
  {
  }

  /** Each function runs on its own copy of the variables: func1's new
      input and func2's new myVar are not seen by the blocks after them. */
  lemma ItRendersAsyncCodeUsingImmutableVariables(guid: string)
    ensures Render("{{func1}}" + " {{func2}}" + " {{func3 $myVar}}", IsolationVariables(guid), IsolationPlugins, IsolationFunctions)
         == Ok("F(OUTPUT-FOO) BAR BAZ")
  {
    var ctx := IsolationVariables(guid);
    var plugins := IsolationPlugins;
    var invoke := IsolationFunctions;
    PrintIsolationCalls();
    FirstResult(guid);
    SecondResult(guid);
    ThirdResult(guid);
    SpaceText();
    RenderEmpty(ctx, plugins, invoke);
    var t3 := " " + Braced(PrintCode(Call3)) + "";
    RenderCallThen(" ", Call3, "", ctx, plugins, invoke);
    var t2 := " " + Braced(PrintCode(Call2)) + t3;
    RenderCallThen(" ", Call2, t3, ctx, plugins, invoke);
    RenderCallThen("", Call1, t2, ctx, plugins, invoke);
    IsolationSpelled(PrintCode(Call1), PrintCode(Call2), PrintCode(Call3));
    IsolationExpected();
  }
}
