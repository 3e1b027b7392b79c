/** The tokenizer scenario of the template engine's unit tests: a template
    mixing plain text, text that only looks like variables (`{$a}`), variable
    blocks and code blocks is cut into ten blocks, and RenderVariables turns
    exactly the variable blocks into text, before and after the variables are
    set. */
module ExtractScenario {
  import opened Wrappers
  import opened Symbols
  import opened Blocks
  import opened QuoteScan
  import opened TemplateTokenizer
  import opened ContextVariables
  import opened PromptTemplate
  import opened TemplateScenarios
  import opened CodeTokenizer
  import opened Strings

  // ---------------------------------------------------------------------
  // Generic steps

  lemma EmptyFront<T>(x: seq<T>, y: seq<T>)
    ensures [] + x + y == x + y
  {
  }

  /** A block at the very start of a template becomes the first block. */
  lemma ExtractBlockFirst(b: Block, rest: string, bs: seq<Block>)
    requires b.kind != Text && CanonicalContent(b.kind, b.content)
    requires ExtractBlocks(rest) == Ok(bs)
    ensures ExtractBlocks(Raw(b) + rest) == Ok([b] + bs)
  {
    EmptyFront(Raw(b), rest);
    EmptyFront([b], bs);
    ExtractStep([], b, rest);
    assert TextBlocks([]) == [];
  }

  /** A text followed by a block becomes a Text block and that block. */
  lemma ExtractTextThenBlock(pre: string, b: Block, rest: string, bs: seq<Block>)
    requires CanonicalText(pre)
    requires b.kind != Text && CanonicalContent(b.kind, b.content)
    requires ExtractBlocks(rest) == Ok(bs)
    ensures ExtractBlocks(pre + Raw(b) + rest) == Ok([Block(Text, pre), b] + bs)
  {
    ExtractStep(pre, b, rest);
    assert TextBlocks(pre) == [Block(Text, pre)];
    PairFront(Block(Text, pre), b, bs);
  }

  lemma PairFront<T>(a: T, b: T, bs: seq<T>)
    ensures [a] + [b] + bs == [a, b] + bs
  {
  }

  lemma ExtractEmpty()
    ensures ExtractBlocks([]) == Ok([])
  {
    assert FindOpen([]) == None;
  }

  /** Content without quotes and without `}` that the tokenizer reads back
      as written. */
  lemma PlainCanonical(c: string)
    requires c != [] && !IsWhiteSpace(c[0]) && !IsWhiteSpace(c[|c| - 1])
    requires forall i :: 0 <= i < |c| ==> !IsQuote(c[i]) && c[i] != BlockEnder
    ensures CanonicalContent(KindOf(c), c)
  {
    PlainPassesOver(c, AtCloser);
    PassesOverEndsAt(c, AtCloser);
  }

  /** Text without `{{` that does not end with `{`, joined to another such
      text, is again such a text. */
  lemma CanonicalTextConcat(a: string, b: string)
    requires CanonicalText(a) && CanonicalText(b)
    ensures CanonicalText(a + b)
  {
    var t := a + b;
    forall i | 0 <= i < |t| ensures !OpensAt(t, i) {
      if i + 1 < |a| {
        assert t[i] == a[i] && t[i + 1] == a[i + 1];
        assert !OpensAt(a, i);
      } else if i + 1 == |a| {
        assert t[i] == a[|a| - 1];
      } else if i + 1 < |t| {
        assert t[i] == b[i - |a|] && t[i + 1] == b[i - |a| + 1];
        assert !OpensAt(b, i - |a|);
      }
    }
    assert t[|t| - 1] == b[|b| - 1];
  }

  // ---------------------------------------------------------------------
  // The template and its blocks

  const X11Var := Block(Variable, "$x11")
  const FooCode := Block(Code, "foo")
  const BarCode := Block(Code, "bar $a")
  const BazCode := Block(Code, "baz $_a")
  const YayCode := Block(Code, "yay $x11")
  const FoodCode := Block(Code, "food a='b' c = $d")

  /** The text before the first block: the braces of `{$a}` are single, so
      it holds no block. */
  const LeadText := "{$x11} This {$a} is {$_a} a "
  const TestText := " test "
  const TemplateText := " template "

  /** The test's template, split at its block boundaries and the last
      block once more before its quote. */
  const VariablesTemplate := LeadText + "{{$x11}}" + TestText + "{{$x11}}" + TemplateText
    + "{{foo}}" + "{{bar $a}}" + "{{baz $_a}}" + "{{yay $x11}}" + ("{{" + "food a=" + ("'b' c = $d" + "}}"))

  /** The ten blocks the test expects. */
  const VariablesBlocks := [
    Block(Text, LeadText), X11Var, Block(Text, TestText), X11Var, Block(Text, TemplateText),
    FooCode, BarCode, BazCode, YayCode, FoodCode
  ]

  lemma LeadTextCanonical()
    ensures CanonicalText(LeadText)
  {
    var a := "{$x11} This ";
    var b := "{$a} is ";
    var c := "{$_a} a ";
    assert LeadText == a + b + c;
    assert CanonicalText(a);
    assert CanonicalText(b);
    assert CanonicalText(c);
    CanonicalTextConcat(a, b);
    CanonicalTextConcat(a + b, c);
  }

  lemma ShortTextsCanonical()
    ensures CanonicalText(TestText) && CanonicalText(TemplateText)
  {
  }

  lemma PlainBlocksCanonical()
    ensures CanonicalContent(Variable, X11Var.content)
    ensures CanonicalContent(Code, FooCode.content)
    ensures CanonicalContent(Code, BarCode.content)
    ensures CanonicalContent(Code, BazCode.content)
    ensures CanonicalContent(Code, YayCode.content)
  {
    PlainCanonical(X11Var.content);
    PlainCanonical(FooCode.content);
    PlainCanonical(BarCode.content);
    PlainCanonical(BazCode.content);
    PlainCanonical(YayCode.content);
  }

  /** A quoted literal between two plain texts is passed over whole. */
  lemma QuotedBetween(a: string, t: string, c: string)
    requires forall i :: 0 <= i < |a| ==> !IsQuote(a[i]) && a[i] != BlockEnder
    requires forall i :: 0 <= i < |c| ==> !IsQuote(c[i]) && c[i] != BlockEnder
    ensures PassesOver(a + (Quote(t) + c), Outside, AtCloser)
  {
    PlainPassesOver(a, AtCloser);
    QuotePassesOver(t, AtCloser);
    PlainPassesOver(c, AtCloser);
    PassesOverConcat(Quote(t), c, Outside, AtCloser);
    PassesOverConcat(a, Quote(t) + c, Outside, AtCloser);
  }

  lemma FoodPieces()
    ensures FoodCode.content == "food a=" + (Quote("b") + " c = $d")
  {
    assert Escape("b") == "b";
  }

  lemma FoodPlainParts()
    ensures forall i :: 0 <= i < |"food a="| ==> !IsQuote("food a="[i]) && "food a="[i] != BlockEnder
    ensures forall i :: 0 <= i < |" c = $d"| ==> !IsQuote(" c = $d"[i]) && " c = $d"[i] != BlockEnder
  {
  }

  lemma FoodPasses()
    ensures PassesOver(FoodCode.content, Outside, AtCloser)
  {
    FoodPlainParts();
    QuotedBetween("food a=", "b", " c = $d");
    FoodPieces();
  }

  /** `food a='b' c = $d`: the quoted `'b'` is passed over as a literal. */
  lemma FoodCanonical()
    ensures CanonicalContent(Code, FoodCode.content)
  {
    FoodPasses();
    PassesOverEndsAt(FoodCode.content, AtCloser);
  }

  lemma RawSpelledFirst()
    ensures Raw(X11Var) == "{{$x11}}"
    ensures Raw(FooCode) == "{{foo}}"
    ensures Raw(BarCode) == "{{bar $a}}"
  {
  }

  lemma RawSpelledLast()
    ensures Raw(BazCode) == "{{baz $_a}}"
    ensures Raw(YayCode) == "{{yay $x11}}"
  {
  }

  lemma FoodContentSpelled()
    ensures FoodCode.content == "food a=" + "'b' c = $d"
  {
  }

  lemma BracedPlain(c: string, x: string, y: string)
    requires c == x + y
    ensures Braced(c) == "{{" + x + (y + "}}")
  {
  }

  lemma RawSpelledFood()
    ensures Raw(FoodCode) == "{{" + "food a=" + ("'b' c = $d" + "}}")
  {
    FoodContentSpelled();
    BracedPlain(FoodCode.content, "food a=", "'b' c = $d");
  }

  /** The template regrouped block by block. */
  lemma Regroup(t0: string, v: string, t1: string, t2: string, c1: string, c2: string, c3: string, c4: string, c5: string)
    ensures t0 + v + t1 + v + t2 + c1 + c2 + c3 + c4 + c5
         == t0 + v + (t1 + v + (t2 + c1 + (c2 + (c3 + (c4 + (c5 + []))))))
  {
  }

  lemma TenBlocks<T>(a0: T, a1: T, a2: T, a3: T, a4: T, a5: T, a6: T, a7: T, a8: T, a9: T)
    ensures [a0, a1] + ([a2, a3] + ([a4, a5] + ([a6] + ([a7] + ([a8] + ([a9] + []))))))
         == [a0, a1, a2, a3, a4, a5, a6, a7, a8, a9]
  {
  }

  /** ExtractBlocks cuts the test's template into the ten blocks it
      expects, the `{$a}` texts staying text. */
  lemma ExtractVariablesTemplate()
    ensures ExtractBlocks(VariablesTemplate) == Ok(VariablesBlocks)
  {
    LeadTextCanonical();
    ShortTextsCanonical();
    PlainBlocksCanonical();
    FoodCanonical();
    RawSpelledFirst();
    RawSpelledLast();
    RawSpelledFood();
    ExtractEmpty();
    var r5 := Raw(FoodCode) + [];
    ExtractBlockFirst(FoodCode, [], []);
    var r4 := Raw(YayCode) + r5;
    ExtractBlockFirst(YayCode, r5, [FoodCode] + []);
    var r3 := Raw(BazCode) + r4;
    ExtractBlockFirst(BazCode, r4, [YayCode] + ([FoodCode] + []));
    var r2 := Raw(BarCode) + r3;
    ExtractBlockFirst(BarCode, r3, [BazCode] + ([YayCode] + ([FoodCode] + [])));
    var b2 := [BarCode] + ([BazCode] + ([YayCode] + ([FoodCode] + [])));
    var r1 := TemplateText + Raw(FooCode) + r2;
    ExtractTextThenBlock(TemplateText, FooCode, r2, b2);
    var b1 := [Block(Text, TemplateText), FooCode] + b2;
    var r0 := TestText + Raw(X11Var) + r1;
    ExtractTextThenBlock(TestText, X11Var, r1, b1);
    var b0 := [Block(Text, TestText), X11Var] + b1;
    ExtractTextThenBlock(LeadText, X11Var, r0, b0);
    Regroup(LeadText, Raw(X11Var), TestText, TemplateText, Raw(FooCode), Raw(BarCode), Raw(BazCode), Raw(YayCode), Raw(FoodCode));
    TenBlocks(Block(Text, LeadText), X11Var, Block(Text, TestText), X11Var, Block(Text, TemplateText),
      FooCode, BarCode, BazCode, YayCode, FoodCode);
  }

  // ---------------------------------------------------------------------
  // RenderVariables on the ten blocks

  /** The variables the second half of the test sets. */
  function SetVariables(guid: string): Variables {
    Set(Set(Set(Set(Set(Initial(guid), "x11", "x11 value"), "a", "a value"), "_a", "_a value"), "c", "c value"), "d", "d value")
  }

  lemma X11Values(guid: string)
    ensures Get(Initial(guid), VariableName(X11Var.content)) == ""
    ensures Get(SetVariables(guid), VariableName(X11Var.content)) == "x11 value"
  {
    assert VariableName(X11Var.content) == "x11";
  }

  /** RenderVariables leaves a run of blocks without variables as it is. */
  lemma RenderKeepsTail(bs: seq<Block>, v: Variables, k: nat)
    requires k <= |bs|
    requires forall i :: k <= i < |bs| ==> bs[i].kind != Variable
    ensures RenderVariables(bs, v)[k..] == bs[k..]
  {
    var u := RenderVariables(bs, v);
    assert forall i :: 0 <= i < |bs| - k ==> u[k..][i] == u[k + i] == bs[k + i] == bs[k..][i];
  }

  lemma BlocksShape()
    ensures |VariablesBlocks| == 10
    ensures VariablesBlocks[1] == VariablesBlocks[3] == X11Var
    ensures VariablesBlocks[5..] == [FooCode, BarCode, BazCode, YayCode, FoodCode]
    ensures forall i :: 5 <= i < 10 ==> VariablesBlocks[i].kind == Code
  {
  }

  /** While x11 is unset, blocks 1 and 3 render as the empty text. */
  lemma RenderUnset(guid: string)
    ensures var u := RenderVariables(VariablesBlocks, Initial(guid));
            |u| == 10 && u[1] == Block(Text, "") && u[3] == Block(Text, "") && u[5..] == VariablesBlocks[5..]
  {
    BlocksShape();
    X11Values(guid);
    RenderKeepsTail(VariablesBlocks, Initial(guid), 5);
  }

  /** Once x11 is set, blocks 1 and 3 render as its value. */
  lemma RenderSet(guid: string)
    ensures var u := RenderVariables(VariablesBlocks, SetVariables(guid));
            |u| == 10 && u[1] == Block(Text, "x11 value") && u[3] == Block(Text, "x11 value") && u[5..] == VariablesBlocks[5..]
  {
    BlocksShape();
    X11Values(guid);
    RenderKeepsTail(VariablesBlocks, SetVariables(guid), 5);
  }

  /** Blocks 1 and 3 turn into the empty text while x11 is unset and into
      its value once it is set; the code blocks 5 to 9 are left as they
      are. */
  lemma ItRendersVariables(guid: string)
    ensures ExtractBlocks(VariablesTemplate) == Ok(VariablesBlocks)
    ensures |VariablesBlocks| == 10
    ensures VariablesBlocks[1] == VariablesBlocks[3] == Block(Variable, "$x11")
    ensures VariablesBlocks[5..] == [Block(Code, "foo"), Block(Code, "bar $a"), Block(Code, "baz $_a"),
                                     Block(Code, "yay $x11"), Block(Code, "food a='b' c = $d")]
    ensures var u := RenderVariables(VariablesBlocks, Initial(guid));
            |u| == 10 && u[1] == Block(Text, "") && u[3] == Block(Text, "") && u[5..] == VariablesBlocks[5..]
    ensures var u := RenderVariables(VariablesBlocks, SetVariables(guid));
            |u| == 10 && u[1] == Block(Text, "x11 value") && u[3] == Block(Text, "x11 value") && u[5..] == VariablesBlocks[5..]
  {
    ExtractVariablesTemplate();
    BlocksShape();
    RenderUnset(guid);
    RenderSet(guid);
  }
  // ---------------------------------------------------------------------
  // A `{{` inside an open block

  /** The closer after `{$x` is the first `}}`. */
  lemma NestedScan()
    ensures Scan("{$x}}}", Outside, AtCloser) == Some(3)
  {
    PlainPassesOver("{$x", AtCloser);
    PassesOverEndsAt("{$x", AtCloser);
    EndsAtFollowed("{$x", AtCloser, "}");
    assert "{$x" + Marker(AtCloser) + "}" == "{$x}}}";
  }

  lemma NestedCut()
    ensures FirstCut("{{{$x}}}") == Cut([], "{$x", "}")
  {
    var t := "{{{$x}}}";
    assert OpensAt(t, 0);
    assert FindOpen(t) == Some(0);
    assert t[2..] == "{$x}}}";
    NestedScan();
    CutAt(t, 0, 3);
    assert t[..0] == [] && t[2..][..3] == "{$x" && t[7..] == "}";
  }

  lemma NestedBlocks()
    ensures BlockOf("{$x") == Block(Code, "{$x")
    ensures ExtractBlocks("}") == Ok([Block(Text, "}")])
  {
    TrimUntrimmed("{$x");
    assert FindOpen("}") == None;
  }

  lemma NestedTokens()
    ensures Tokens("{$x") == ["{$x"]
  {
    PlainPassesOver("{$x", AtBlank);
    WordsSingle("{$x");
    JoinEqualsPrinted(["{$x"]);
  }

  lemma NestedBadId()
    ensures ParseFunctionId("{$x").Err?
  {
    assert IndexOf("{$x", PluginSeparator) == None;
    assert !IsNameChar("{$x"[0]);
  }

  /** Code whose first word is not a function name does not parse. */
  lemma BadIdRejected(c: string, w: string)
    requires Tokens(c) == [w] && ParseFunctionId(w).Err?
    ensures CompileBlock(Block(Code, c)).Err?
  {
    assert ParseCode(c).Err?;
  }

  lemma NestedRejected()
    ensures CompileBlock(Block(Code, "{$x")).Err?
  {
    NestedTokens();
    NestedBadId();
    BadIdRejected("{$x", "{$x");
  }

  lemma NestedList()
    ensures TextBlocks([]) + [Block(Code, "{$x")] + [Block(Text, "}")] == [Block(Code, "{$x"), Block(Text, "}")]
  {
  }

  /** A block opens at the first `{{`: the `{{` right after it belongs to
      its interior, so braces around a variable block give a Code block
      `{$x` and a text `}`, and the Code block is rejected. */
  lemma NestedOpenerInside()
    ensures ExtractBlocks("{{{$x}}}") == Ok([Block(Code, "{$x"), Block(Text, "}")])
    ensures CompileBlock(Block(Code, "{$x")).Err?
  {
    NestedCut();
    NestedBlocks();
    ExtractCut("{{{$x}}}", [], "{$x", "}");
    NestedList();
    NestedRejected();
  }
}
