/** The code-block parser: reads the content of a `{{...}}` Code block as a
    function call.

    The content is split into blank-separated words, a quoted literal staying
    inside its word whatever it holds.  Blanks next to the `=` of a named
    argument are allowed, so `c = $d` is the one word `c=$d`.  The first word
    names the function, `function` or `plugin.function`.  An optional
    positional argument follows it, and then only named arguments
    `name=value`, where the value must start with a quote or `$`. */
module CodeTokenizer {
  import opened Wrappers
  import opened Symbols
  import opened Strings
  import opened QuoteScan
  import opened Blocks
  import opened Sequences

  /** An argument value: a variable reference `$name`, or a literal whose
      text is already unescaped. */
  datatype Arg = VarRef(name: string) | Literal(text: string)

  datatype NamedArg = NamedArg(name: string, value: Arg)

  /** `function` or `plugin.function`. */
  datatype FunctionId = FunctionId(pluginName: Option<string>, functionName: string)

  datatype CodeExpr = CodeExpr(id: FunctionId, positional: Option<Arg>, named: seq<NamedArg>)

  // ---------------------------------------------------------------------
  // Words

  /** The length of the word at the head of s: up to the first blank that
      lies outside every literal, or to the end. */
  function WordLength(s: string): (n: nat)
    requires s != [] && !IsBlankSpace(s[0])
    ensures 1 <= n <= |s|
  {
    ScanFound(s, Outside, AtBlank);
    match Scan(s, Outside, AtBlank)
    case None => |s|
    case Some(j) => j
  }

  /** The words of a code block, left to right. */
  function Words(s: string): seq<string>
    decreases |s|
  {
    var t := SkipBlanks(s);
    if t == [] then []
    else
      var n := WordLength(t);
      [t[..n]] + Words(t[n..])
  }

  /** `=` stands at the edge between two words. */
  predicate EqualsBetween(a: string, b: string) {
    (a != [] && a[|a| - 1] == NamedArgSeparator) || (b != [] && b[0] == NamedArgSeparator)
  }

  /** Glues a word to the next one when `=` stands at the edge between them. */
  function JoinEquals(ws: seq<string>): seq<string>
    decreases |ws|
  {
    if |ws| >= 2 && EqualsBetween(ws[0], ws[1]) then
      JoinEquals([ws[0] + ws[1]] + ws[2..])
    else if ws == [] then []
    else [ws[0]] + JoinEquals(ws[1..])
  }

  function Tokens(content: string): seq<string> {
    JoinEquals(Words(content))
  }

  // ---------------------------------------------------------------------
  // Parsing

  /** A variable reference or a quoted literal.  `unprefixed` is the error
      for a word that starts with neither `$` nor a quote. */
  function ParseArg(w: string, unprefixed: string): (r: Result<Arg, Error>)
    ensures r.Ok? ==> ValidArg(r.value)
    ensures r.Err? ==> r.error.SyntaxError?
  {
    if w != [] && w[0] == VarPrefix then
      if ValidName(w[1..]) then Ok(VarRef(w[1..])) else Err(SyntaxError(InvalidVariableMessage))
    else if w != [] && IsQuote(w[0]) then
      if |w| >= 2 && w[|w| - 1] == w[0] && LiteralText(w[1..|w| - 1], w[0]) then Ok(Literal(Unescape(w[1..|w| - 1])))
      else Err(SyntaxError(InvalidValueMessage))
    else Err(SyntaxError(unprefixed))
  }

  /** A word shaped `name=value`: it holds `=` and is not itself a value. */
  predicate IsNamed(w: string) {
    w != [] && w[0] != VarPrefix && !IsQuote(w[0]) && IndexOf(w, NamedArgSeparator).Some?
  }

  /** Splits at the first `=`.  The value must start with a quote or `$`. */
  function ParseNamedArg(w: string): (r: Result<NamedArg, Error>)
    requires IsNamed(w)
    ensures r.Ok? ==> ValidNamedArg(r.value)
    ensures r.Err? ==> r.error.SyntaxError?
  {
    var i := IndexOf(w, NamedArgSeparator).value;
    if !ValidName(w[..i]) then Err(SyntaxError(InvalidArgNameMessage))
    else
      var a :- ParseArg(w[i + 1..], NamedArgPrefixMessage);
      Ok(NamedArg(w[..i], a))
  }

  function ParseFunctionId(w: string): (r: Result<FunctionId, Error>)
    ensures r.Ok? ==> ValidId(r.value)
    ensures r.Err? ==> r.error.SyntaxError?
  {
    match IndexOf(w, PluginSeparator)
    case None =>
      if ValidName(w) then Ok(FunctionId(None, w)) else Err(SyntaxError(InvalidFunctionMessage))
    case Some(i) =>
      if ValidName(w[..i]) && ValidName(w[i + 1..]) then Ok(FunctionId(Some(w[..i]), w[i + 1..]))
      else Err(SyntaxError(InvalidFunctionMessage))
  }

  /** Named arguments only, in order; the first malformed one is reported. */
  function ParseNamedArgs(ws: seq<string>): (r: Result<seq<NamedArg>, Error>)
    ensures r.Ok? ==> |r.value| == |ws|
    ensures r.Ok? ==> forall i :: 0 <= i < |r.value| ==> ValidNamedArg(r.value[i])
    ensures r.Err? ==> r.error.SyntaxError?
    decreases |ws|
  {
    if ws == [] then Ok([])
    else if !IsNamed(ws[0]) then Err(SyntaxError(PositionalArgMessage))
    else
      var a :- ParseNamedArg(ws[0]);
      var rest :- ParseNamedArgs(ws[1..]);
      Ok([a] + rest)
  }

  /** The words after the function name: an optional positional argument,
      then named arguments. */
  function ParseArgs(ws: seq<string>): (r: Result<(Option<Arg>, seq<NamedArg>), Error>)
    ensures r.Ok? ==> (r.value.0.Some? ==> ValidArg(r.value.0.value))
    ensures r.Ok? ==> forall i :: 0 <= i < |r.value.1| ==> ValidNamedArg(r.value.1[i])
    ensures r.Err? ==> r.error.SyntaxError?
  {
    if ws == [] then Ok((None, []))
    else if IsNamed(ws[0]) then
      var named :- ParseNamedArgs(ws);
      Ok((None, named))
    else
      var a :- ParseArg(ws[0], PositionalArgMessage);
      var named :- ParseNamedArgs(ws[1..]);
      Ok((Some(a), named))
  }

  /** Parses the content of a Code block.  What it accepts is a call that
      can be written back as code (ParsePrintParse), and every error it
      reports is a syntax error. */
  function ParseCode(content: string): (r: Result<CodeExpr, Error>)
    ensures r.Ok? ==> ValidCode(r.value)
    ensures r.Err? ==> r.error.SyntaxError?
  {
    var ws := Tokens(content);
    if ws == [] then Err(SyntaxError(EmptyCodeMessage))
    else
      var id :- ParseFunctionId(ws[0]);
      var args :- ParseArgs(ws[1..]);
      Ok(CodeExpr(id, args.0, args.1))
  }

  // ---------------------------------------------------------------------
  // Writing a call back as code

  predicate ValidArg(a: Arg) {
    a.VarRef? ==> ValidName(a.name)
  }

  predicate ValidId(id: FunctionId) {
    && ValidName(id.functionName)
    && (id.pluginName.Some? ==> ValidName(id.pluginName.value))
  }

  predicate ValidNamedArg(n: NamedArg) {
    ValidName(n.name) && ValidArg(n.value)
  }

  /** Calls that can be written in a template. */
  predicate ValidCode(e: CodeExpr) {
    && ValidId(e.id)
    && (e.positional.Some? ==> ValidArg(e.positional.value))
    && forall i :: 0 <= i < |e.named| ==> ValidNamedArg(e.named[i])
  }

  function PrintArg(a: Arg): string {
    match a
    case VarRef(n) => [VarPrefix] + n
    case Literal(t) => Quote(t)
  }

  function PrintNamedArg(n: NamedArg): string {
    n.name + [NamedArgSeparator] + PrintArg(n.value)
  }

  function PrintId(id: FunctionId): string {
    match id.pluginName
    case None => id.functionName
    case Some(p) => p + [PluginSeparator] + id.functionName
  }

  function PrintNamedArgs(ns: seq<NamedArg>): (r: seq<string>)
    ensures |r| == |ns|
    ensures forall i :: 0 <= i < |ns| ==> r[i] == PrintNamedArg(ns[i])
  {
    seq(|ns|, i requires 0 <= i < |ns| => PrintNamedArg(ns[i]))
  }

  function PrintWords(e: CodeExpr): seq<string> {
    [PrintId(e.id)]
      + (if e.positional.Some? then [PrintArg(e.positional.value)] else [])
      + PrintNamedArgs(e.named)
  }

  function JoinSpace(ws: seq<string>): string
    decreases |ws|
  {
    if ws == [] then []
    else if |ws| == 1 then ws[0]
    else ws[0] + [' '] + JoinSpace(ws[1..])
  }

  /** The code for a call: its words separated by single spaces. */
  function PrintCode(e: CodeExpr): string {
    JoinSpace(PrintWords(e))
  }

  // ---------------------------------------------------------------------
  // Reading printed code back

  /** A word the tokenizer reads back as one token. */
  predicate PrintedWord(w: string) {
    && w != []
    && !IsBlankSpace(w[0])
    && w[0] != NamedArgSeparator
    && w[|w| - 1] != NamedArgSeparator
    && PassesOver(w, Outside, AtBlank)
  }

  predicate PrintedWords(ws: seq<string>) {
    forall i :: 0 <= i < |ws| ==> PrintedWord(ws[i])
  }

  lemma PrintedWordsTail(ws: seq<string>)
    requires PrintedWords(ws) && ws != []
    ensures PrintedWords(ws[1..])
  {
    forall i | 0 <= i < |ws| - 1 ensures PrintedWord(ws[1..][i]) {
      assert ws[1..][i] == ws[i + 1];
    }
  }

  lemma JoinSpaceHead(ws: seq<string>)
    requires ws != [] && ws[0] != []
    ensures JoinSpace(ws) != [] && JoinSpace(ws)[0] == ws[0][0]
  {
  }

  /** A printed word on its own is one word. */
  lemma WordsSingle(w: string)
    requires PrintedWord(w)
    ensures Words(w) == [w]
  {
    PassesOverEndsAt(w, AtBlank);
    EndsAtNoStop(w, AtBlank);
    assert SkipBlanks(w) == w;
    assert WordLength(w) == |w|;
    assert w[|w|..] == [];
    assert w[..|w|] == w;
  }

  /** A printed word followed by a space is split off whole. */
  lemma WordsStep(w: string, rest: string)
    requires PrintedWord(w)
    requires rest != [] && !IsBlankSpace(rest[0])
    ensures Words(w + [' '] + rest) == [w] + Words(rest)
  {
    WordLengthPrinted(w, rest);
    SpacedPieces(w, rest);
    WordsSplitAt(w + [' '] + rest, |w|);
  }

  lemma SpacedPieces(w: string, rest: string)
    ensures (w + [' '] + rest)[..|w|] == w
    ensures (w + [' '] + rest)[|w| + 1..] == rest
  {
  }

  /** A word of length n followed by a blank and a further word. */
  lemma WordsSplitAt(s: string, n: nat)
    requires s != [] && !IsBlankSpace(s[0]) && WordLength(s) == n
    requires n + 1 < |s| && IsBlankSpace(s[n]) && !IsBlankSpace(s[n + 1])
    ensures Words(s) == [s[..n]] + Words(s[n + 1..])
  {
    WordsAt(s);
    WordsAfterBlankAt(s[n..]);
    assert s[n..][1..] == s[n + 1..];
  }

  lemma WordLengthPrinted(w: string, rest: string)
    requires PrintedWord(w)
    requires rest != [] && !IsBlankSpace(rest[0])
    ensures (w + [' '] + rest)[0] == w[0]
    ensures (w + [' '] + rest)[|w|] == ' ' && (w + [' '] + rest)[|w| + 1] == rest[0]
    ensures WordLength(w + [' '] + rest) == |w|
  {
    PassesOverEndsAt(w, AtBlank);
    EndsAtFollowed(w, AtBlank, rest);
  }

  /** Words unfolded at a text that starts with a word. */
  lemma WordsAt(s: string)
    requires s != [] && !IsBlankSpace(s[0])
    ensures Words(s) == [s[..WordLength(s)]] + Words(s[WordLength(s)..])
  {
    assert SkipBlanks(s) == s;
  }

  lemma WordsAfterBlankAt(t: string)
    requires |t| >= 2 && IsBlankSpace(t[0]) && !IsBlankSpace(t[1])
    ensures Words(t) == Words(t[1..])
  {
    assert SkipBlanks(t[1..]) == t[1..];
    assert SkipBlanks(t) == t[1..];
  }

  /** Splitting words joined by single spaces gives the words back. */
  lemma {:induction false} WordsJoinSpace(ws: seq<string>)
    requires PrintedWords(ws)
    ensures Words(JoinSpace(ws)) == ws
    decreases |ws|
  {
    if ws == [] {
      assert SkipBlanks([]) == [];
    } else if |ws| == 1 {
      assert PrintedWord(ws[0]);
      WordsSingle(ws[0]);
    } else {
      PrintedWordsTail(ws);
      WordsJoinSpace(ws[1..]);
      WordsJoinSpaceCons(ws);
    }
  }

  lemma WordsJoinSpaceCons(ws: seq<string>)
    requires |ws| >= 2 && PrintedWord(ws[0]) && PrintedWord(ws[1])
    requires Words(JoinSpace(ws[1..])) == ws[1..]
    ensures Words(JoinSpace(ws)) == ws
  {
    var rest := JoinSpace(ws[1..]);
    JoinSpaceHead(ws[1..]);
    WordsStep(ws[0], rest);
    calc {
      Words(JoinSpace(ws));
      Words(ws[0] + [' '] + rest);
      [ws[0]] + Words(rest);
      [ws[0]] + ws[1..];
      { ConsSplit(ws); }
      ws;
    }
  }

  /** Words with no `=` at their edges are not glued together. */
  lemma {:induction false} JoinEqualsPrinted(ws: seq<string>)
    requires PrintedWords(ws)
    ensures JoinEquals(ws) == ws
    decreases |ws|
  {
    if ws != [] {
      assert PrintedWord(ws[0]);
      if |ws| >= 2 {
        assert PrintedWord(ws[1]);
      }
      PrintedWordsTail(ws);
      JoinEqualsPrinted(ws[1..]);
    }
  }

  /** Tokenizing words joined by single spaces gives the words back. */
  lemma TokensJoinSpace(ws: seq<string>)
    requires PrintedWords(ws)
    ensures Tokens(JoinSpace(ws)) == ws
  {
    WordsJoinSpace(ws);
    JoinEqualsPrinted(ws);
  }

  /** Name characters open no literal and start no stop. */
  lemma NamePassesOver(n: string)
    requires forall i :: 0 <= i < |n| ==> IsNameChar(n[i]) || n[i] == PluginSeparator || n[i] == VarPrefix || n[i] == NamedArgSeparator
    ensures PassesOver(n, Outside, AtBlank)
  {
    PlainPassesOver(n, AtBlank);
  }

  lemma PrintArgPasses(a: Arg)
    requires ValidArg(a)
    ensures PassesOver(PrintArg(a), Outside, AtBlank)
    ensures PrintArg(a) != [] && (PrintArg(a)[0] == VarPrefix || IsQuote(PrintArg(a)[0]))
    ensures PrintArg(a)[|PrintArg(a)| - 1] != NamedArgSeparator
  {
    match a
    case VarRef(n) =>
      NamePassesOver([VarPrefix] + n);
    case Literal(t) =>
      QuotePassesOver(t, AtBlank);
  }

  lemma PrintArgWord(a: Arg)
    requires ValidArg(a)
    ensures PrintedWord(PrintArg(a))
  {
    PrintArgPasses(a);
  }

  lemma PrintNamedArgWord(n: NamedArg)
    requires ValidNamedArg(n)
    ensures PrintedWord(PrintNamedArg(n))
  {
    var head := n.name + [NamedArgSeparator];
    NamePassesOver(head);
    PrintArgPasses(n.value);
    PassesOverConcat(head, PrintArg(n.value), Outside, AtBlank);
  }

  lemma PrintIdWord(id: FunctionId)
    requires ValidId(id)
    ensures PrintedWord(PrintId(id))
  {
    NamePassesOver(PrintId(id));
  }

  lemma PrintWordsPrinted(e: CodeExpr)
    requires ValidCode(e)
    ensures PrintedWords(PrintWords(e))
  {
    var ws := PrintWords(e);
    PrintIdWord(e.id);
    if e.positional.Some? {
      PrintArgWord(e.positional.value);
    }
    forall i | 0 <= i < |e.named| ensures PrintedWord(PrintNamedArg(e.named[i])) {
      PrintNamedArgWord(e.named[i]);
    }
  }

  /** A printed argument parses back to itself. */
  lemma ParsePrintArg(a: Arg, unprefixed: string)
    requires ValidArg(a)
    ensures ParseArg(PrintArg(a), unprefixed) == Ok(a)
  {
    match a
    case VarRef(n) =>
      assert ([VarPrefix] + n)[1..] == n;
    case Literal(t) =>
      var w := Quote(t);
      assert w[1..|w| - 1] == Escape(t);
      EscapeLiteralText(t);
      UnescapeEscape(t);
  }

  /** A printed named argument is read as a named argument and parses back
      to itself. */
  lemma ParsePrintNamedArg(n: NamedArg)
    requires ValidNamedArg(n)
    ensures IsNamed(PrintNamedArg(n))
    ensures ParseNamedArg(PrintNamedArg(n)) == Ok(n)
  {
    var w := PrintNamedArg(n);
    var k := |n.name|;
    assert w[k] == NamedArgSeparator;
    forall j | 0 <= j < k ensures w[j] != NamedArgSeparator {
      assert w[j] == n.name[j];
    }
    IndexOfAt(w, NamedArgSeparator, k);
    assert w[..k] == n.name;
    assert w[k + 1..] == PrintArg(n.value);
    ParsePrintArg(n.value, NamedArgPrefixMessage);
  }

  lemma ParsePrintId(id: FunctionId)
    requires ValidId(id)
    ensures ParseFunctionId(PrintId(id)) == Ok(id)
  {
    var w := PrintId(id);
    match id.pluginName
    case None =>
      assert IndexOf(w, PluginSeparator) == None;
    case Some(p) =>
      var k := |p|;
      assert w[k] == PluginSeparator;
      forall j | 0 <= j < k ensures w[j] != PluginSeparator {
        assert w[j] == p[j];
      }
      IndexOfAt(w, PluginSeparator, k);
      assert w[..k] == p;
      assert w[k + 1..] == id.functionName;
  }

  lemma {:induction false} ParsePrintNamedArgs(ns: seq<NamedArg>)
    requires forall i :: 0 <= i < |ns| ==> ValidNamedArg(ns[i])
    ensures ParseNamedArgs(PrintNamedArgs(ns)) == Ok(ns)
    decreases |ns|
  {
    if ns != [] {
      var ws := PrintNamedArgs(ns);
      ParsePrintNamedArg(ns[0]);
      assert ws[1..] == PrintNamedArgs(ns[1..]);
      ParsePrintNamedArgs(ns[1..]);
      assert [ns[0]] + ns[1..] == ns;
    }
  }

  /** Reading the code printed for a call gives the call back. */
  lemma ParsePrintCode(e: CodeExpr)
    requires ValidCode(e)
    ensures ParseCode(PrintCode(e)) == Ok(e)
  {
    var ws := PrintWords(e);
    PrintWordsPrinted(e);
    TokensJoinSpace(ws);
    ParsePrintId(e.id);
    ParsePrintArgs(e);
  }

  /** Printing a parsed call and parsing it again gives the same call: the
      printed form is a normal form of the code that ParseCode accepts. */
  lemma ParsePrintParse(content: string)
    requires ParseCode(content).Ok?
    ensures ParseCode(PrintCode(ParseCode(content).value)) == ParseCode(content)
  {
    ParsePrintCode(ParseCode(content).value);
  }

  /** The words after the function name parse back to the arguments. */
  lemma ParsePrintArgs(e: CodeExpr)
    requires ValidCode(e)
    ensures ParseArgs(PrintWords(e)[1..]) == Ok((e.positional, e.named))
  {
    PrintWordsShape(e);
    ParsePrintNamedArgs(e.named);
    if e.positional.Some? {
      var a := e.positional.value;
      PrintArgPasses(a);
      ParsePrintArg(a, PositionalArgMessage);
    } else if e.named != [] {
      ParsePrintNamedArg(e.named[0]);
    }
  }

  lemma PrintWordsShape(e: CodeExpr)
    ensures PrintWords(e)[0] == PrintId(e.id)
    ensures e.positional.Some? ==> PrintWords(e)[1..][0] == PrintArg(e.positional.value)
    ensures e.positional.Some? ==> PrintWords(e)[1..][1..] == PrintNamedArgs(e.named)
    ensures e.positional.None? ==> PrintWords(e)[1..] == PrintNamedArgs(e.named)
  {
  }

  // ---------------------------------------------------------------------
  // Printed code, one argument at a time

  lemma {:induction false} JoinSpaceSnoc(ws: seq<string>, w: string)
    requires ws != []
    ensures JoinSpace(ws + [w]) == JoinSpace(ws) + [' '] + w
    decreases |ws|
  {
    if |ws| == 1 {
      assert ws + [w] == [ws[0], w];
    } else {
      assert (ws + [w])[1..] == ws[1..] + [w];
      JoinSpaceSnoc(ws[1..], w);
    }
  }

  lemma PrintWordsSnoc(id: FunctionId, p: Option<Arg>, ns: seq<NamedArg>, n: NamedArg)
    ensures PrintWords(CodeExpr(id, p, ns + [n])) == PrintWords(CodeExpr(id, p, ns)) + [PrintNamedArg(n)]
  {
    assert PrintNamedArgs(ns + [n]) == PrintNamedArgs(ns) + [PrintNamedArg(n)];
  }

  /** A call without arguments prints as its name. */
  lemma PrintCodeBare(id: FunctionId)
    ensures PrintCode(CodeExpr(id, None, [])) == PrintId(id)
  {
    assert PrintWords(CodeExpr(id, None, [])) == [PrintId(id)];
  }

  /** A positional argument follows the name after one space. */
  lemma PrintCodePositional(id: FunctionId, a: Arg)
    ensures PrintCode(CodeExpr(id, Some(a), [])) == PrintId(id) + [' '] + PrintArg(a)
  {
    var ws := PrintWords(CodeExpr(id, Some(a), []));
    assert ws == [PrintId(id), PrintArg(a)];
    assert ws[1..] == [PrintArg(a)];
    assert JoinSpace(ws[1..]) == PrintArg(a);
    assert JoinSpace(ws) == ws[0] + [' '] + JoinSpace(ws[1..]);
  }

  /** Each further named argument is appended after one space. */
  lemma PrintCodeSnoc(id: FunctionId, p: Option<Arg>, ns: seq<NamedArg>, n: NamedArg)
    ensures PrintCode(CodeExpr(id, p, ns + [n])) == PrintCode(CodeExpr(id, p, ns)) + [' '] + PrintNamedArg(n)
  {
    PrintWordsSnoc(id, p, ns, n);
    JoinSpaceSnoc(PrintWords(CodeExpr(id, p, ns)), PrintNamedArg(n));
  }

  // ---------------------------------------------------------------------
  // Named arguments with a bare value

  /** A named value written without its prefix: a word of the code that
      starts with neither `$` nor a quote, such as `42`, `-1` or `4.2`, and
      does not end with `=`. */
  predicate BareValue(v: string) {
    && v != []
    && v[0] != VarPrefix && !IsQuote(v[0])
    && v[|v| - 1] != NamedArgSeparator
    && PassesOver(v, Outside, AtBlank)
  }

  /** `name=v` with v neither quoted nor a variable reference. */
  function BareNamed(name: string, v: string): string {
    name + [NamedArgSeparator] + v
  }

  lemma BareNamedPieces(name: string, v: string)
    requires v != []
    ensures BareNamed(name, v)[|name|] == NamedArgSeparator
    ensures forall j :: 0 <= j < |name| ==> BareNamed(name, v)[j] == name[j]
    ensures BareNamed(name, v)[..|name|] == name
    ensures BareNamed(name, v)[|name| + 1..] == v
    ensures BareNamed(name, v)[|BareNamed(name, v)| - 1] == v[|v| - 1]
    ensures BareNamed(name, v) == (name + [NamedArgSeparator]) + v
  {
  }

  /** A bare value is read as one named-argument word. */
  lemma BareNamedPrinted(name: string, v: string)
    requires ValidName(name) && BareValue(v)
    ensures PrintedWord(BareNamed(name, v))
  {
    var head := name + [NamedArgSeparator];
    BareNamedPieces(name, v);
    NamePassesOver(head);
    PassesOverConcat(head, v, Outside, AtBlank);
  }

  /** A bare value is rejected for lacking its prefix. */
  lemma ParseBareNamed(name: string, v: string)
    requires ValidName(name) && BareValue(v)
    ensures IsNamed(BareNamed(name, v))
    ensures ParseNamedArg(BareNamed(name, v)) == Err(SyntaxError(NamedArgPrefixMessage))
  {
    var w := BareNamed(name, v);
    BareNamedPieces(name, v);
    IndexOfAt(w, NamedArgSeparator, |name|);
  }

  lemma PrintNamedArgsTail(ns: seq<NamedArg>)
    requires ns != []
    ensures PrintNamedArgs(ns)[0] == PrintNamedArg(ns[0])
    ensures PrintNamedArgs(ns)[1..] == PrintNamedArgs(ns[1..])
  {
  }

  lemma PrintNamedArgsPrinted(ns: seq<NamedArg>)
    requires forall i :: 0 <= i < |ns| ==> ValidNamedArg(ns[i])
    ensures PrintedWords(PrintNamedArgs(ns))
  {
    forall i | 0 <= i < |ns| ensures PrintedWord(PrintNamedArgs(ns)[i]) {
      PrintNamedArgWord(ns[i]);
    }
  }

  lemma PrintedWordsAround(a: seq<string>, w: string, b: seq<string>)
    requires PrintedWords(a) && PrintedWord(w) && PrintedWords(b)
    ensures PrintedWords(a + [w] + b)
  {
    AroundOne(a, w, b);
  }

  lemma PrintedWordsCons(w: string, a: seq<string>)
    requires PrintedWord(w) && PrintedWords(a)
    ensures PrintedWords([w] + a)
  {
    AroundOne([], w, a);
    assert [] + [w] + a == [w] + a;
  }

  /** Well-formed named arguments are read up to the first bare one, which
      fails the whole list whatever words follow it. */
  lemma {:induction false} ParseNamedArgsBare(ns: seq<NamedArg>, name: string, v: string, rest: seq<string>)
    requires forall i :: 0 <= i < |ns| ==> ValidNamedArg(ns[i])
    requires ValidName(name) && BareValue(v)
    ensures ParseNamedArgs(PrintNamedArgs(ns) + [BareNamed(name, v)] + rest) == Err(SyntaxError(NamedArgPrefixMessage))
    decreases |ns|
  {
    var pa := PrintNamedArgs(ns);
    var bad := BareNamed(name, v);
    AroundOne(pa, bad, rest);
    ParseBareNamed(name, v);
    if ns != [] {
      PrintNamedArgsTail(ns);
      ParsePrintNamedArg(ns[0]);
      ParseNamedArgsBare(ns[1..], name, v, rest);
    }
  }

  /** The words of an optional positional argument. */
  function PositionalWords(p: Option<Arg>): seq<string> {
    if p.Some? then [PrintArg(p.value)] else []
  }

  /** The arguments of a call: an optional positional argument, well-formed
      named arguments, a bare named value and then any further words. */
  function BareArgWords(p: Option<Arg>, ns: seq<NamedArg>, name: string, v: string, more: seq<string>): seq<string> {
    PositionalWords(p) + (PrintNamedArgs(ns) + [BareNamed(name, v)] + more)
  }

  lemma BareCallPrinted(id: FunctionId, p: Option<Arg>, ns: seq<NamedArg>, name: string, v: string, more: seq<string>)
    requires ValidId(id)
    requires p.Some? ==> ValidArg(p.value)
    requires forall i :: 0 <= i < |ns| ==> ValidNamedArg(ns[i])
    requires ValidName(name) && BareValue(v)
    requires PrintedWords(more)
    ensures PrintedWords([PrintId(id)] + BareArgWords(p, ns, name, v, more))
  {
    var tail := PrintNamedArgs(ns) + [BareNamed(name, v)] + more;
    PrintIdWord(id);
    BareNamedPrinted(name, v);
    PrintNamedArgsPrinted(ns);
    PrintedWordsAround(PrintNamedArgs(ns), BareNamed(name, v), more);
    if p.Some? {
      PrintArgWord(p.value);
      PrintedWordsCons(PrintArg(p.value), tail);
    } else {
      assert BareArgWords(p, ns, name, v, more) == tail;
    }
    PrintedWordsCons(PrintId(id), BareArgWords(p, ns, name, v, more));
  }

  lemma ParseBareArgs(p: Option<Arg>, ns: seq<NamedArg>, name: string, v: string, more: seq<string>)
    requires p.Some? ==> ValidArg(p.value)
    requires forall i :: 0 <= i < |ns| ==> ValidNamedArg(ns[i])
    requires ValidName(name) && BareValue(v)
    ensures ParseArgs(BareArgWords(p, ns, name, v, more)) == Err(SyntaxError(NamedArgPrefixMessage))
  {
    var pa := PrintNamedArgs(ns);
    var bad := BareNamed(name, v);
    var tail := pa + [bad] + more;
    AroundOne(pa, bad, more);
    ParseNamedArgsBare(ns, name, v, more);
    if p.Some? {
      PrintArgPasses(p.value);
      ParsePrintArg(p.value, PositionalArgMessage);
      HeadTail(PrintArg(p.value), tail);
    } else {
      assert BareArgWords(p, ns, name, v, more) == tail;
      ParseBareNamed(name, v);
      if ns != [] {
        PrintNamedArgsTail(ns);
        ParsePrintNamedArg(ns[0]);
      }
    }
  }

  /** A call with a bare named value does not parse, whether or not a
      positional argument precedes it: when every argument before it is
      well formed, the bare value is reported, whatever words follow it. */
  lemma ParseBareCall(id: FunctionId, p: Option<Arg>, ns: seq<NamedArg>, name: string, v: string, more: seq<string>)
    requires ValidId(id)
    requires p.Some? ==> ValidArg(p.value)
    requires forall i :: 0 <= i < |ns| ==> ValidNamedArg(ns[i])
    requires ValidName(name) && BareValue(v)
    requires PrintedWords(more)
    ensures ParseCode(JoinSpace([PrintId(id)] + BareArgWords(p, ns, name, v, more))) == Err(SyntaxError(NamedArgPrefixMessage))
  {
    var args := BareArgWords(p, ns, name, v, more);
    var ws := [PrintId(id)] + args;
    BareCallPrinted(id, p, ns, name, v, more);
    TokensJoinSpace(ws);
    HeadTail(PrintId(id), args);
    ParsePrintId(id);
    ParseBareArgs(p, ns, name, v, more);
  }
}
