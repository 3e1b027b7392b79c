/** Rendering a prompt template against a variable context.

    Rendering has three stages.  The template is cut into blocks
    (ExtractBlocks).  Every block is then checked and the code blocks are
    parsed (Compile), so that a malformed block fails the whole render
    before any function runs.  Last, the blocks are rendered left to right
    (Evaluate): text is copied, a variable is read from the context, and a
    code block calls its function and contributes the function's result.

    A called function receives its own copy of the context, with its
    arguments bound into it.  Whatever it does to that copy stays there: the
    renderer keeps only the result text, so every block reads the context as
    the caller passed it in. */
module PromptTemplate {
  import opened Wrappers
  import opened Symbols
  import opened Blocks
  import opened TemplateTokenizer
  import opened CodeTokenizer
  import opened ContextVariables
  import opened PluginExtensions
  import opened QuoteScan
  import opened Sequences

  // ---------------------------------------------------------------------
  // RenderVariables

  /** The name a Variable block refers to: its content without the `$`. */
  function VariableName(content: string): string {
    if content != [] && content[0] == VarPrefix then content[1..] else content
  }

  /** The block a Variable block turns into: a Text block holding the value,
      or the empty text when the variable is not set. */
  function RenderVariable(b: Block, v: Variables): Block {
    if b.kind == Variable then Block(Text, Get(v, VariableName(b.content))) else b
  }

  /** Turns every Variable block into a Text block and leaves the others
      alone. */
  function RenderVariables(bs: seq<Block>, v: Variables): (r: seq<Block>)
    ensures |r| == |bs|
    ensures forall i :: 0 <= i < |bs| && bs[i].kind == Variable ==>
              r[i].kind == Text && r[i].content == Get(v, VariableName(bs[i].content))
    ensures forall i :: 0 <= i < |bs| && bs[i].kind != Variable ==> r[i] == bs[i]
    decreases |bs|
  {
    if bs == [] then [] else [RenderVariable(bs[0], v)] + RenderVariables(bs[1..], v)
  }

  /** No Variable block survives RenderVariables, so a second pass, with
      any variables at all, changes nothing. */
  lemma RenderVariablesIdempotent(bs: seq<Block>, v: Variables, w: Variables)
    ensures forall i :: 0 <= i < |RenderVariables(bs, v)| ==> RenderVariables(bs, v)[i].kind != Variable
    ensures RenderVariables(RenderVariables(bs, v), w) == RenderVariables(bs, v)
  {
    var r := RenderVariables(bs, v);
    var s := RenderVariables(r, w);
    assert forall i :: 0 <= i < |r| ==> r[i].kind != Variable by {
      forall i | 0 <= i < |r| ensures r[i].kind != Variable {
        if bs[i].kind == Variable {
          assert r[i].kind == Text;
        }
      }
    }
    assert forall i :: 0 <= i < |s| ==> s[i] == r[i];
  }

  // ---------------------------------------------------------------------
  // Compile

  /** A checked block, ready to be rendered. */
  datatype Segment =
    | Emit(text: string)
    | Lookup(name: string)
    | Invoke(call: CodeExpr)

  function CompileBlock(b: Block): (r: Result<Segment, Error>)
    ensures r.Err? ==> r.error.SyntaxError?
  {
    match b.kind
    case Text => Ok(Emit(b.content))
    case Variable =>
      if b.content != [] && b.content[0] == VarPrefix && ValidName(b.content[1..]) then Ok(Lookup(b.content[1..]))
      else Err(SyntaxError(InvalidVariableMessage))
    case Value =>
      (match ParseArg(b.content, InvalidValueMessage)
       case Ok(Literal(t)) => Ok(Emit(t))
       case _ => Err(SyntaxError(InvalidValueMessage)))
    case Code =>
      var e :- ParseCode(b.content);
      Ok(Invoke(e))
  }

  /** Checks every block, in order, and reports the first malformed one.
      The list compiles exactly when every block does, and segment i is
      block i's. */
  function Compile(bs: seq<Block>): (r: Result<seq<Segment>, Error>)
    ensures r.Ok? <==> forall i :: 0 <= i < |bs| ==> CompileBlock(bs[i]).Ok?
    ensures r.Ok? ==> |r.value| == |bs| && forall i :: 0 <= i < |bs| ==> r.value[i] == CompileBlock(bs[i]).value
    ensures r.Err? ==> r.error.SyntaxError?
    decreases |bs|
  {
    if bs == [] then Ok([])
    else
      var s :- CompileBlock(bs[0]);
      var rest :- Compile(bs[1..]);
      assert forall i :: 1 <= i < |bs| ==> bs[i] == bs[1..][i - 1];
      Ok([s] + rest)
  }

  // ---------------------------------------------------------------------
  // Evaluate

  /** What a called function gives back: its result text and the context
      as it left it. */
  datatype Outcome = Outcome(result: string, variables: Variables)

  /** Runs a function on the context it is given; an Err carries the
      failure message. */
  type Invoker = (KernelFunction, Variables) -> Result<Outcome, string>

  /** The value an argument stands for in the context. */
  function Resolve(ctx: Variables, a: Arg): string {
    match a
    case VarRef(n) => Get(ctx, n)
    case Literal(t) => t
  }

  /** Binds named arguments into c, left to right, so that of two arguments
      with the same name the later one wins.  Values are read from ctx. */
  function BindNamed(c: Variables, ctx: Variables, ns: seq<NamedArg>): Variables
    decreases |ns|
  {
    if ns == [] then c
    else BindNamed(Set(c, ns[0].name, Resolve(ctx, ns[0].value)), ctx, ns[1..])
  }

  /** The context a call receives: a copy of the caller's context with the
      positional argument bound to the input and the named arguments bound
      by name. */
  function CalleeContext(ctx: Variables, e: CodeExpr): Variables {
    var c := if e.positional.Some? then Set(ctx, InputKey, Resolve(ctx, e.positional.value)) else ctx;
    BindNamed(c, ctx, e.named)
  }

  /** Renders one segment. */
  function EvalSegment(s: Segment, ctx: Variables, plugins: seq<Plugin>, invoke: Invoker): (r: Result<string, Error>)
    ensures r.Err? ==> s.Invoke? && (r.error.FunctionNotFound? || r.error.InvocationFailed?)
  {
    match s
    case Emit(t) => Ok(t)
    case Lookup(n) => Ok(Get(ctx, n))
    case Invoke(e) =>
      match TryGetFunction(plugins, e.id.pluginName, e.id.functionName)
      case None => Err(FunctionNotFound(e.id.pluginName, e.id.functionName))
      case Some(f) =>
        match invoke(f, CalleeContext(ctx, e))
        case Err(m) => Err(InvocationFailed(m))
        case Ok(o) => Ok(o.result)
  }

  /** Renders the segments left to right and concatenates their texts.
      Every segment sees the same context. */
  function Evaluate(segs: seq<Segment>, ctx: Variables, plugins: seq<Plugin>, invoke: Invoker): (r: Result<string, Error>)
    ensures r.Err? ==> r.error.FunctionNotFound? || r.error.InvocationFailed?
    decreases |segs|
  {
    if segs == [] then Ok([])
    else
      var head :- EvalSegment(segs[0], ctx, plugins, invoke);
      var rest :- Evaluate(segs[1..], ctx, plugins, invoke);
      Ok(head + rest)
  }

  /** RenderAsync: cut, check, then render.  It fails with a syntax error
      exactly when the template does not tokenize or one of its blocks is
      malformed; any other failure is a missing or failing function. */
  function Render(template: string, ctx: Variables, plugins: seq<Plugin>, invoke: Invoker): (r: Result<string, Error>)
    ensures r.Err? && r.error.SyntaxError? <==> !Checked(template)
    ensures r.Err? && !r.error.SyntaxError? ==> r.error.FunctionNotFound? || r.error.InvocationFailed?
  {
    var blocks :- ExtractBlocks(template);
    var segs :- Compile(blocks);
    Evaluate(segs, ctx, plugins, invoke)
  }

  // ---------------------------------------------------------------------
  // Properties of rendering

  /** Rendering is compositional: two runs of segments render to the
      concatenation of their renderings, the first failure winning. */
  lemma {:induction false} EvaluateAppend(a: seq<Segment>, b: seq<Segment>, ctx: Variables, plugins: seq<Plugin>, invoke: Invoker)
    ensures Evaluate(a + b, ctx, plugins, invoke)
         == (match Evaluate(a, ctx, plugins, invoke)
             case Err(e) => Err(e)
             case Ok(x) =>
               (match Evaluate(b, ctx, plugins, invoke)
                case Err(e) => Err(e)
                case Ok(y) => Ok(x + y)))
    decreases |a|
  {
    if a == [] {
      assert a + b == b;
      var y := Evaluate(b, ctx, plugins, invoke);
      if y.Ok? {
        assert [] + y.value == y.value;
      }
    } else {
      var t := a[1..];
      ConsAppend(a, b);
      EvaluateCons(a[0], t + b, ctx, plugins, invoke);
      EvaluateCons(a[0], t, ctx, plugins, invoke);
      EvaluateAppend(t, b, ctx, plugins, invoke);
      var h := EvalSegment(a[0], ctx, plugins, invoke);
      var x := Evaluate(t, ctx, plugins, invoke);
      var y := Evaluate(b, ctx, plugins, invoke);
      if h.Ok? && x.Ok? && y.Ok? {
        ConcatAssoc(h.value, x.value, y.value);
      }
    }
  }

  lemma ConsAppend(a: seq<Segment>, b: seq<Segment>)
    requires a != []
    ensures a + b == [a[0]] + (a[1..] + b)
    ensures a == [a[0]] + a[1..]
  {
  }

  /** Call isolation: what a function does to its copy of the context has
      no effect on the render.  Two invokers that return the same results
      give the same rendering, however differently they leave the context. */
  lemma {:induction false} EvaluateIgnoresCalleeContext(segs: seq<Segment>, ctx: Variables, plugins: seq<Plugin>, i1: Invoker, i2: Invoker)
    requires forall f, v :: i1(f, v).Ok? == i2(f, v).Ok?
    requires forall f, v :: i1(f, v).Ok? ==> i1(f, v).value.result == i2(f, v).value.result
    requires forall f, v :: i1(f, v).Err? ==> i1(f, v).error == i2(f, v).error
    ensures Evaluate(segs, ctx, plugins, i1) == Evaluate(segs, ctx, plugins, i2)
    decreases |segs|
  {
    if segs != [] {
      EvaluateIgnoresCalleeContext(segs[1..], ctx, plugins, i1, i2);
      assert EvalSegment(segs[0], ctx, plugins, i1) == EvalSegment(segs[0], ctx, plugins, i2);
    }
  }

  lemma RenderIgnoresCalleeContext(template: string, ctx: Variables, plugins: seq<Plugin>, i1: Invoker, i2: Invoker)
    requires forall f, v :: i1(f, v).Ok? == i2(f, v).Ok?
    requires forall f, v :: i1(f, v).Ok? ==> i1(f, v).value.result == i2(f, v).value.result
    requires forall f, v :: i1(f, v).Err? ==> i1(f, v).error == i2(f, v).error
    ensures Render(template, ctx, plugins, i1) == Render(template, ctx, plugins, i2)
  {
    var blocks := ExtractBlocks(template);
    if blocks.Ok? && Compile(blocks.value).Ok? {
      EvaluateIgnoresCalleeContext(Compile(blocks.value).value, ctx, plugins, i1, i2);
    }
  }

  /** Syntax errors come first: a template with a malformed block fails with
      the first block's syntax error whatever the context, the plugins and
      the functions, none of which is ever called. */
  lemma {:induction false} CompileFirstError(bs: seq<Block>, k: nat)
    requires k < |bs|
    requires forall i :: 0 <= i < k ==> CompileBlock(bs[i]).Ok?
    requires CompileBlock(bs[k]).Err?
    ensures Compile(bs) == Err(CompileBlock(bs[k]).error)
    decreases k
  {
    if k > 0 {
      CompileFirstError(bs[1..], k - 1);
    }
  }

  lemma RenderSyntaxError(template: string, bs: seq<Block>, k: nat, ctx: Variables, plugins: seq<Plugin>, invoke: Invoker)
    requires ExtractBlocks(template) == Ok(bs)
    requires k < |bs|
    requires forall i :: 0 <= i < k ==> CompileBlock(bs[i]).Ok?
    requires CompileBlock(bs[k]).Err?
    ensures Render(template, ctx, plugins, invoke) == Err(CompileBlock(bs[k]).error)
    ensures Render(template, ctx, plugins, invoke).error.SyntaxError?
  {
    CompileFirstError(bs, k);
  }

  /** Without code blocks, rendering is RenderVariables followed by joining
      the texts of the blocks. */
  function JoinTexts(bs: seq<Block>): string
    decreases |bs|
  {
    if bs == [] then [] else bs[0].content + JoinTexts(bs[1..])
  }

  predicate TextAndVariables(bs: seq<Block>) {
    forall i :: 0 <= i < |bs| ==> bs[i].kind == Text || (bs[i].kind == Variable && CompileBlock(bs[i]).Ok?)
  }

  lemma {:induction false} EvaluateTextAndVariables(bs: seq<Block>, ctx: Variables, plugins: seq<Plugin>, invoke: Invoker)
    requires TextAndVariables(bs)
    ensures Compile(bs).Ok?
    ensures Evaluate(Compile(bs).value, ctx, plugins, invoke) == Ok(JoinTexts(RenderVariables(bs, ctx)))
    decreases |bs|
  {
    if bs != [] {
      assert TextAndVariables(bs[1..]) by {
        forall i | 0 <= i < |bs| - 1 ensures bs[1..][i].kind == Text || (bs[1..][i].kind == Variable && CompileBlock(bs[1..][i]).Ok?) {
          assert bs[1..][i] == bs[i + 1];
        }
      }
      EvaluateTextAndVariables(bs[1..], ctx, plugins, invoke);
      assert bs[0].kind == Text || bs[0].kind == Variable;
      var segs := Compile(bs).value;
      assert segs[1..] == Compile(bs[1..]).value;
      assert RenderVariables(bs, ctx)[1..] == RenderVariables(bs[1..], ctx);
    }
  }

  lemma RenderTextAndVariables(template: string, bs: seq<Block>, ctx: Variables, plugins: seq<Plugin>, invoke: Invoker)
    requires ExtractBlocks(template) == Ok(bs)
    requires TextAndVariables(bs)
    ensures Render(template, ctx, plugins, invoke) == Ok(JoinTexts(RenderVariables(bs, ctx)))
  {
    EvaluateTextAndVariables(bs, ctx, plugins, invoke);
  }

  // ---------------------------------------------------------------------
  // Argument binding

  /** The last argument of that name, if any. */
  function LastBinding(ns: seq<NamedArg>, name: string): Option<Arg>
    decreases |ns|
  {
    if ns == [] then None
    else if ns[|ns| - 1].name == name then Some(ns[|ns| - 1].value)
    else LastBinding(ns[..|ns| - 1], name)
  }

  lemma {:induction false} BindNamedAppend(c: Variables, ctx: Variables, ns: seq<NamedArg>, n: NamedArg)
    ensures BindNamed(c, ctx, ns + [n]) == Set(BindNamed(c, ctx, ns), n.name, Resolve(ctx, n.value))
    decreases |ns|
  {
    if ns == [] {
      assert ns + [n] == [n];
    } else {
      assert (ns + [n])[1..] == ns[1..] + [n];
      BindNamedAppend(Set(c, ns[0].name, Resolve(ctx, ns[0].value)), ctx, ns[1..], n);
    }
  }

  /** After binding, a variable holds the value of the last argument of its
      name, and is untouched when no argument has its name. */
  lemma {:induction false} BindNamedGet(c: Variables, ctx: Variables, ns: seq<NamedArg>, name: string)
    ensures Get(BindNamed(c, ctx, ns), name)
         == (match LastBinding(ns, name)
             case None => Get(c, name)
             case Some(a) => Resolve(ctx, a))
    decreases |ns|
  {
    if ns != [] {
      var init := ns[..|ns| - 1];
      var n := ns[|ns| - 1];
      assert ns == init + [n];
      BindNamedAppend(c, ctx, init, n);
      BindNamedGet(c, ctx, init, name);
    }
  }

  /** What a function finds in its context: for the input, the last named
      `input` argument, else the positional argument, else the caller's
      input; for any other name, the last argument of that name, else the
      caller's value. */
  lemma CalleeContextGet(ctx: Variables, e: CodeExpr, name: string)
    ensures Get(CalleeContext(ctx, e), name)
         == (match LastBinding(e.named, name)
             case Some(a) => Resolve(ctx, a)
             case None =>
               if name == InputKey && e.positional.Some? then Resolve(ctx, e.positional.value)
               else Get(ctx, name))
  {
    var c := if e.positional.Some? then Set(ctx, InputKey, Resolve(ctx, e.positional.value)) else ctx;
    BindNamedGet(c, ctx, e.named, name);
  }

  /** A call without arguments runs on an unchanged copy of the caller's
      context. */
  lemma CalleeContextNoArgs(ctx: Variables, id: FunctionId)
    ensures CalleeContext(ctx, CodeExpr(id, None, [])) == ctx
  {
  }

  /** The positional argument is the named argument `input` written first:
      `f $x a=$y` and `f input=$x a=$y` bind the same context. */
  lemma PositionalIsNamedInput(ctx: Variables, id: FunctionId, a: Arg, ns: seq<NamedArg>)
    ensures CalleeContext(ctx, CodeExpr(id, Some(a), ns))
         == CalleeContext(ctx, CodeExpr(id, None, [NamedArg(InputKey, a)] + ns))
  {
    var m := [NamedArg(InputKey, a)] + ns;
    assert m[0] == NamedArg(InputKey, a);
    assert m[1..] == ns;
  }

  // ---------------------------------------------------------------------
  // Templates built from printed calls

  /** A word that a block's closing scan passes over and that does not end
      in whitespace. */
  predicate ClosedWord(w: string) {
    && w != []
    && !IsWhiteSpace(w[|w| - 1])
    && PassesOver(w, Outside, AtCloser)
  }

  lemma NameClosed(n: string)
    requires forall i :: 0 <= i < |n| ==> IsNameChar(n[i]) || n[i] == PluginSeparator || n[i] == VarPrefix || n[i] == NamedArgSeparator
    ensures PassesOver(n, Outside, AtCloser)
  {
    PlainPassesOver(n, AtCloser);
  }

  lemma PrintArgClosed(a: Arg)
    requires ValidArg(a)
    ensures ClosedWord(PrintArg(a))
  {
    match a
    case VarRef(n) =>
      var w := [VarPrefix] + n;
      NameClosed(w);
      assert w[|w| - 1] == n[|n| - 1];
    case Literal(t) =>
      QuotePassesOver(t, AtCloser);
  }

  lemma PrintNamedArgClosed(n: NamedArg)
    requires ValidNamedArg(n)
    ensures ClosedWord(PrintNamedArg(n))
  {
    var head := n.name + [NamedArgSeparator];
    var v := PrintArg(n.value);
    NameClosed(head);
    PrintArgClosed(n.value);
    PassesOverConcat(head, v, Outside, AtCloser);
    assert PrintNamedArg(n) == head + v;
    assert (head + v)[|head + v| - 1] == v[|v| - 1];
  }

  lemma PrintIdClosed(id: FunctionId)
    requires ValidId(id)
    ensures ClosedWord(PrintId(id))
    ensures IsNameChar(PrintId(id)[0])
  {
    var w := PrintId(id);
    NameClosed(w);
    assert w[|w| - 1] == id.functionName[|id.functionName| - 1];
  }

  lemma {:induction false} JoinSpaceClosed(ws: seq<string>)
    requires ws != []
    requires forall i :: 0 <= i < |ws| ==> ClosedWord(ws[i])
    ensures ClosedWord(JoinSpace(ws))
    decreases |ws|
  {
    if |ws| > 1 {
      var rest := JoinSpace(ws[1..]);
      assert forall i :: 0 <= i < |ws| - 1 ==> ws[1..][i] == ws[i + 1];
      JoinSpaceClosed(ws[1..]);
      assert ClosedWord(ws[0]);
      PlainPassesOver([' '], AtCloser);
      PassesOverConcat(ws[0], [' '], Outside, AtCloser);
      PassesOverConcat(ws[0] + [' '], rest, Outside, AtCloser);
      assert JoinSpace(ws) == ws[0] + [' '] + rest;
      assert JoinSpace(ws)[|JoinSpace(ws)| - 1] == rest[|rest| - 1];
    }
  }

  /** The code printed for a call is the content of a Code block the
      tokenizer reads back unchanged. */
  lemma PrintCodeCanonical(e: CodeExpr)
    requires ValidCode(e)
    ensures CanonicalContent(Code, PrintCode(e))
  {
    var ws := PrintWords(e);
    var args := ws[1..];
    PrintWordsShape(e);
    PrintIdClosed(e.id);
    NamedArgsClosed(e.named);
    if e.positional.Some? {
      PrintArgClosed(e.positional.value);
      ClosedWordsCons(args[0], args[1..]);
      ConsSplit(args);
    }
    ClosedWordsCons(ws[0], args);
    ConsSplit(ws);
    ClosedWordsCanonical(ws);
  }

  /** The template tokenizes and every block of it is well formed, so that
      rendering it reaches the evaluation stage. */
  predicate Checked(t: string) {
    ExtractBlocks(t).Ok? && Compile(ExtractBlocks(t).value).Ok?
  }

  lemma RenderEmpty(ctx: Variables, plugins: seq<Plugin>, invoke: Invoker)
    ensures Checked([])
    ensures Render([], ctx, plugins, invoke) == Ok([])
  {
    assert FindOpen([]) == None;
  }

  /** Text without `{{` renders as itself, whatever single braces it holds. */
  lemma RenderPlainText(s: string, ctx: Variables, plugins: seq<Plugin>, invoke: Invoker)
    requires BlockFree(s)
    ensures Checked(s)
    ensures Render(s, ctx, plugins, invoke) == Ok(s)
  {
    ExtractText(s);
    CompileCons(Block(Text, s), []);
    assert [Block(Text, s)] + [] == [Block(Text, s)];
    EvaluateCons(Emit(s), [], ctx, plugins, invoke);
    assert [Emit(s)] + [] == [Emit(s)];
    assert s + [] == s;
  }

  lemma CompileCons(b: Block, bs: seq<Block>)
    requires CompileBlock(b).Ok? && Compile(bs).Ok?
    ensures Compile([b] + bs) == Ok([CompileBlock(b).value] + Compile(bs).value)
  {
    assert ([b] + bs)[0] == b && ([b] + bs)[1..] == bs;
  }

  lemma EvaluateCons(s: Segment, segs: seq<Segment>, ctx: Variables, plugins: seq<Plugin>, invoke: Invoker)
    ensures Evaluate([s] + segs, ctx, plugins, invoke)
         == (match EvalSegment(s, ctx, plugins, invoke)
             case Err(x) => Err(x)
             case Ok(h) =>
               (match Evaluate(segs, ctx, plugins, invoke)
                case Err(x) => Err(x)
                case Ok(y) => Ok(h + y)))
  {
    assert ([s] + segs)[0] == s && ([s] + segs)[1..] == segs;
  }

  /** The segments a text compiles to: none for the empty text. */
  function TextSegments(s: string): seq<Segment> {
    if s == [] then [] else [Emit(s)]
  }

  /** A text, then a delimited block, then the rest of a template: the
      segments are the text's, the block's and the rest's. */
  lemma CompileBlockThen(pre: string, b: Block, rest: string)
    requires pre == [] || CanonicalText(pre)
    requires b.kind != Text && CanonicalContent(b.kind, b.content)
    requires CompileBlock(b).Ok?
    requires Checked(rest)
    ensures Checked(pre + Raw(b) + rest)
    ensures Compile(ExtractBlocks(pre + Raw(b) + rest).value)
         == Ok(TextSegments(pre) + [CompileBlock(b).value] + Compile(ExtractBlocks(rest).value).value)
  {
    ExtractStep(pre, b, rest);
    var bsr := ExtractBlocks(rest).value;
    var segr := Compile(bsr).value;
    var sb := CompileBlock(b).value;
    CompileCons(b, bsr);
    if pre == [] {
      CompileBlockFirst(b, bsr, segr);
    } else {
      CompileTextFirst(pre, b, bsr, sb, segr);
    }
  }

  lemma CompileBlockFirst(b: Block, bsr: seq<Block>, segr: seq<Segment>)
    requires CompileBlock(b).Ok? && Compile(bsr) == Ok(segr)
    ensures Compile(TextBlocks([]) + [b] + bsr) == Ok(TextSegments([]) + [CompileBlock(b).value] + segr)
  {
    CompileCons(b, bsr);
    NoTextBlocks(b, bsr);
    SegmentsNoText(CompileBlock(b).value, segr);
  }

  lemma NoTextBlocks(b: Block, bsr: seq<Block>)
    ensures TextBlocks([]) + [b] + bsr == [b] + bsr
  {
  }

  lemma CompileTextFirst(pre: string, b: Block, bsr: seq<Block>, sb: Segment, segr: seq<Segment>)
    requires pre != []
    requires CompileBlock(b) == Ok(sb) && Compile(bsr) == Ok(segr)
    ensures Compile(TextBlocks(pre) + [b] + bsr) == Ok(TextSegments(pre) + [sb] + segr)
  {
    CompileCons(b, bsr);
    CompileCons(Block(Text, pre), [b] + bsr);
    assert TextBlocks(pre) + [b] + bsr == [Block(Text, pre)] + ([b] + bsr);
    assert TextSegments(pre) + [sb] + segr == [Emit(pre)] + ([sb] + segr);
  }

  lemma CompileCall(pre: string, e: CodeExpr, rest: string)
    requires pre == [] || CanonicalText(pre)
    requires ValidCode(e)
    requires Checked(rest)
    ensures Checked(pre + Braced(PrintCode(e)) + rest)
    ensures Compile(ExtractBlocks(pre + Braced(PrintCode(e)) + rest).value)
         == Ok(TextSegments(pre) + [Invoke(e)] + Compile(ExtractBlocks(rest).value).value)
  {
    var b := Block(Code, PrintCode(e));
    PrintCodeCanonical(e);
    CallBlock(e);
    CompileBlockThen(pre, b, rest);
  }

  /** The Code block holding printed code compiles to the call. */
  lemma CallBlock(e: CodeExpr)
    requires ValidCode(e)
    ensures CompileBlock(Block(Code, PrintCode(e))) == Ok(Invoke(e))
    ensures Raw(Block(Code, PrintCode(e))) == Braced(PrintCode(e))
  {
    ParsePrintCode(e);
  }

  /** Evaluating a text, one segment and the rest. */
  lemma EvaluateTextThen(pre: string, sg: Segment, segr: seq<Segment>, ctx: Variables, plugins: seq<Plugin>, invoke: Invoker)
    ensures Evaluate(TextSegments(pre) + [sg] + segr, ctx, plugins, invoke)
         == (match EvalSegment(sg, ctx, plugins, invoke)
             case Err(x) => Err(x)
             case Ok(h) =>
               (match Evaluate(segr, ctx, plugins, invoke)
                case Err(x) => Err(x)
                case Ok(y) => Ok(pre + h + y)))
  {
    EvaluateCons(sg, segr, ctx, plugins, invoke);
    if pre == [] {
      SegmentsNoText(sg, segr);
      EvaluateNoText(sg, segr, ctx, plugins, invoke);
    } else {
      SegmentsText(pre, sg, segr);
      EvaluateCons(Emit(pre), [sg] + segr, ctx, plugins, invoke);
      EvaluateWithText(pre, sg, segr, ctx, plugins, invoke);
    }
  }

  lemma SegmentsNoText(sg: Segment, segr: seq<Segment>)
    ensures TextSegments([]) + [sg] + segr == [sg] + segr
  {
  }

  lemma SegmentsText(pre: string, sg: Segment, segr: seq<Segment>)
    requires pre != []
    ensures TextSegments(pre) + [sg] + segr == [Emit(pre)] + ([sg] + segr)
  {
  }

  lemma EvaluateNoText(sg: Segment, segr: seq<Segment>, ctx: Variables, plugins: seq<Plugin>, invoke: Invoker)
    ensures Evaluate([sg] + segr, ctx, plugins, invoke)
         == (match EvalSegment(sg, ctx, plugins, invoke)
             case Err(x) => Err(x)
             case Ok(h) =>
               (match Evaluate(segr, ctx, plugins, invoke)
                case Err(x) => Err(x)
                case Ok(y) => Ok([] + h + y)))
  {
    EvaluateCons(sg, segr, ctx, plugins, invoke);
    var h := EvalSegment(sg, ctx, plugins, invoke);
    var y := Evaluate(segr, ctx, plugins, invoke);
    if h.Ok? && y.Ok? {
      EmptyConcat(h.value, y.value);
    }
  }

  lemma EvaluateWithText(pre: string, sg: Segment, segr: seq<Segment>, ctx: Variables, plugins: seq<Plugin>, invoke: Invoker)
    requires pre != []
    ensures Evaluate([Emit(pre)] + ([sg] + segr), ctx, plugins, invoke)
         == (match EvalSegment(sg, ctx, plugins, invoke)
             case Err(x) => Err(x)
             case Ok(h) =>
               (match Evaluate(segr, ctx, plugins, invoke)
                case Err(x) => Err(x)
                case Ok(y) => Ok(pre + h + y)))
  {
    EvaluateCons(Emit(pre), [sg] + segr, ctx, plugins, invoke);
    EvaluateCons(sg, segr, ctx, plugins, invoke);
    var h := EvalSegment(sg, ctx, plugins, invoke);
    var y := Evaluate(segr, ctx, plugins, invoke);
    if h.Ok? && y.Ok? {
      ConcatAssoc(pre, h.value, y.value);
    }
  }

  lemma EmptyConcat(a: string, b: string)
    ensures [] + a + b == a + b
  {
  }

  lemma ConcatAssoc(a: string, b: string, c: string)
    ensures a + (b + c) == a + b + c
  {
  }

  /** A text, then a call block holding printed code, then the rest of the
      template: the text is copied, the call contributes its result, and the
      rest renders as it would alone.  A failing call fails the render. */
  lemma RenderCallThen(pre: string, e: CodeExpr, rest: string, ctx: Variables, plugins: seq<Plugin>, invoke: Invoker)
    requires pre == [] || CanonicalText(pre)
    requires ValidCode(e)
    requires Checked(rest)
    ensures Checked(pre + Braced(PrintCode(e)) + rest)
    ensures Render(pre + Braced(PrintCode(e)) + rest, ctx, plugins, invoke)
         == (match EvalSegment(Invoke(e), ctx, plugins, invoke)
             case Err(x) => Err(x)
             case Ok(r) =>
               (match Render(rest, ctx, plugins, invoke)
                case Err(x) => Err(x)
                case Ok(y) => Ok(pre + r + y)))
  {
    CompileCall(pre, e, rest);
    var segr := Compile(ExtractBlocks(rest).value).value;
    EvaluateTextThen(pre, Invoke(e), segr, ctx, plugins, invoke);
  }

  /** A call block between two texts renders as the texts around the
      call's result. */
  lemma RenderCallInText(pre: string, e: CodeExpr, post: string, ctx: Variables, plugins: seq<Plugin>, invoke: Invoker, result: string)
    requires pre == [] || CanonicalText(pre)
    requires post == [] || BlockFree(post)
    requires ValidCode(e)
    requires EvalSegment(Invoke(e), ctx, plugins, invoke) == Ok(result)
    ensures Render(pre + Braced(PrintCode(e)) + post, ctx, plugins, invoke) == Ok(pre + result + post)
  {
    if post == [] {
      RenderEmpty(ctx, plugins, invoke);
      EmptyTail(pre + result);
    } else {
      RenderPlainText(post, ctx, plugins, invoke);
    }
    RenderCallThen(pre, e, post, ctx, plugins, invoke);
  }

  lemma EmptyTail(a: string)
    ensures a + [] == a
  {
  }

  // ---------------------------------------------------------------------
  // Calls with a bare named value

  predicate ClosedWords(ws: seq<string>) {
    forall i :: 0 <= i < |ws| ==> ClosedWord(ws[i])
  }

  lemma ClosedWordsAround(a: seq<string>, w: string, b: seq<string>)
    requires ClosedWords(a) && ClosedWord(w) && ClosedWords(b)
    ensures ClosedWords(a + [w] + b)
  {
    AroundOne(a, w, b);
  }

  lemma ClosedWordsCons(w: string, a: seq<string>)
    requires ClosedWord(w) && ClosedWords(a)
    ensures ClosedWords([w] + a)
  {
    HeadTail(w, a);
  }

  lemma NamedArgsClosed(ns: seq<NamedArg>)
    requires forall i :: 0 <= i < |ns| ==> ValidNamedArg(ns[i])
    ensures ClosedWords(PrintNamedArgs(ns))
  {
    forall i | 0 <= i < |ns| ensures ClosedWord(PrintNamedArgs(ns)[i]) {
      PrintNamedArgClosed(ns[i]);
    }
  }

  /** Closed words joined by spaces, the first starting with a name
      character, are the content of a Code block read back unchanged. */
  lemma ClosedWordsCanonical(ws: seq<string>)
    requires ws != [] && ClosedWords(ws)
    requires IsNameChar(ws[0][0])
    ensures CanonicalContent(Code, JoinSpace(ws))
  {
    JoinSpaceClosed(ws);
    JoinSpaceHead(ws);
    PassesOverEndsAt(JoinSpace(ws), AtCloser);
  }

  /** The code of a call with a bare named value is still the content of a
      Code block that the tokenizer reads back unchanged. */
  lemma BareCallCanonical(id: FunctionId, p: Option<Arg>, ns: seq<NamedArg>, name: string, v: string, more: seq<string>)
    requires ValidId(id)
    requires p.Some? ==> ValidArg(p.value)
    requires forall i :: 0 <= i < |ns| ==> ValidNamedArg(ns[i])
    requires ValidName(name) && BareValue(v) && ClosedWord(v)
    requires ClosedWords(more)
    ensures CanonicalContent(Code, JoinSpace([PrintId(id)] + BareArgWords(p, ns, name, v, more)))
  {
    var bad := BareNamed(name, v);
    var head := name + [NamedArgSeparator];
    var tail := PrintNamedArgs(ns) + [bad] + more;
    var args := BareArgWords(p, ns, name, v, more);
    PrintIdClosed(id);
    BareNamedPieces(name, v);
    NameClosed(head);
    PassesOverConcat(head, v, Outside, AtCloser);
    assert ClosedWord(bad);
    NamedArgsClosed(ns);
    ClosedWordsAround(PrintNamedArgs(ns), bad, more);
    if p.Some? {
      PrintArgClosed(p.value);
      ClosedWordsCons(PrintArg(p.value), tail);
    } else {
      assert args == tail;
    }
    ClosedWordsCons(PrintId(id), args);
    HeadTail(PrintId(id), args);
    ClosedWordsCanonical([PrintId(id)] + args);
  }

  /** A block that fails to compile, between two texts, is the error of the
      whole template. */
  lemma RenderRejectedBlock(pre: string, b: Block, post: string, ctx: Variables, plugins: seq<Plugin>, invoke: Invoker)
    requires pre == [] || CanonicalText(pre)
    requires post == [] || BlockFree(post)
    requires b.kind != Text && CanonicalContent(b.kind, b.content)
    requires CompileBlock(b).Err?
    ensures Render(pre + Raw(b) + post, ctx, plugins, invoke) == Err(CompileBlock(b).error)
  {
    ExtractStep(pre, b, post);
    if post == [] {
      RenderEmpty(ctx, plugins, invoke);
    } else {
      ExtractText(post);
    }
    var tb := TextBlocks(pre);
    var bs := tb + [b] + ExtractBlocks(post).value;
    AroundOne(tb, b, ExtractBlocks(post).value);
    RenderSyntaxError(pre + Raw(b) + post, bs, |tb|, ctx, plugins, invoke);
  }

  /** A template whose call block has a bare named value fails with a
      syntax error before anything is evaluated, with or without a
      positional argument, when every argument before the bare one is well
      formed and whatever words follow it. */
  lemma RenderBareCall(pre: string, id: FunctionId, p: Option<Arg>, ns: seq<NamedArg>, name: string, v: string, more: seq<string>,
                       post: string, ctx: Variables, plugins: seq<Plugin>, invoke: Invoker)
    requires pre == [] || CanonicalText(pre)
    requires post == [] || BlockFree(post)
    requires ValidId(id)
    requires p.Some? ==> ValidArg(p.value)
    requires forall i :: 0 <= i < |ns| ==> ValidNamedArg(ns[i])
    requires ValidName(name) && BareValue(v) && ClosedWord(v)
    requires PrintedWords(more) && ClosedWords(more)
    ensures Render(pre + Braced(JoinSpace([PrintId(id)] + BareArgWords(p, ns, name, v, more))) + post, ctx, plugins, invoke)
         == Err(SyntaxError(NamedArgPrefixMessage))
  {
    var b := Block(Code, JoinSpace([PrintId(id)] + BareArgWords(p, ns, name, v, more)));
    BareCallCanonical(id, p, ns, name, v, more);
    ParseBareCall(id, p, ns, name, v, more);
    RejectedCode(b.content, NamedArgPrefixMessage);
    RenderRejectedBlock(pre, b, post, ctx, plugins, invoke);
  }

  /** A Code block whose content does not parse is rejected with the
      parser's error, and is written back between its braces. */
  lemma RejectedCode(c: string, m: string)
    requires ParseCode(c) == Err(SyntaxError(m))
    ensures CompileBlock(Block(Code, c)) == Err(SyntaxError(m))
    ensures Raw(Block(Code, c)) == Braced(c)
  {
  }
}
