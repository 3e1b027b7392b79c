/** The template tokenizer: cuts a prompt template into Text blocks and
    `{{...}}` blocks, left to right.

    Only a double brace opens a block, so `{$x}` stays literal text.  A block
    closes at the first `}}` that is not inside a quoted value literal.  Its
    interior is trimmed; an empty interior leaves the whole `{{ }}` as text,
    and otherwise the first character decides the kind: `$` a Variable, a
    quote a Value, anything else Code.  The content of the block is the
    trimmed interior; what it means is checked later, when the template is
    rendered. */
module TemplateTokenizer {
  import opened Wrappers
  import opened Symbols
  import opened Strings
  import opened QuoteScan
  import opened Blocks
  import opened Sequences

  predicate OpensAt(s: string, i: int) {
    0 <= i && i + 1 < |s| && s[i] == BlockStarter && s[i + 1] == BlockStarter
  }

  /** The position of the first `{{` in s. */
  function FindOpen(s: string): (r: Option<nat>)
    ensures r.Some? ==> OpensAt(s, r.value) && forall j :: 0 <= j < r.value ==> !OpensAt(s, j)
    ensures r.None? ==> forall j :: 0 <= j < |s| ==> !OpensAt(s, j)
    decreases |s|
  {
    if |s| < 2 then None
    else if s[0] == BlockStarter && s[1] == BlockStarter then Some(0)
    else
      var r := FindOpen(s[1..]);
      assert forall j :: 1 <= j < |s| ==> (OpensAt(s, j) <==> OpensAt(s[1..], j - 1));
      match r
      case None => None
      case Some(i) => Some(i + 1)
  }

  /** The text before a block, unless it is empty. */
  function TextBlocks(s: string): (r: seq<Block>)
    ensures s == [] ==> r == []
    ensures s != [] ==> r == [Block(Text, s)]
  {
    if s == [] then [] else [Block(Text, s)]
  }

  /** Every block the tokenizer produces is non-empty, and a delimited block
      has trimmed content whose first character names its kind. */
  predicate WellKinded(b: Block) {
    && b.content != []
    && (b.kind != Text ==>
          !IsWhiteSpace(b.content[0]) && !IsWhiteSpace(b.content[|b.content| - 1])
          && KindOf(b.content) == b.kind)
  }

  /** The block for a trimmed interior; `raw` is the block with its braces. */
  function Classify(interior: string, raw: string): (b: Block)
    requires raw != []
    requires interior != [] ==> !IsWhiteSpace(interior[0]) && !IsWhiteSpace(interior[|interior| - 1])
    ensures WellKinded(b)
    ensures b.kind == Text <==> interior == []
  {
    if interior == [] then Block(Text, raw) else Block(KindOf(interior), interior)
  }

  /** How a template starts: with no block at all, with a `{{` that is
      never closed, or with the text before its first block, the untrimmed
      interior of that block and what follows it. */
  datatype Cut =
    | NoBlock
    | Unclosed
    | Cut(before: string, inner: string, after: string)

  /** Delimits a block interior with its braces. */
  function Braced(inner: string): string {
    [BlockStarter, BlockStarter] + inner + [BlockEnder, BlockEnder]
  }

  /** A block between two texts, spelled out. */
  lemma BracedSpelled(pre: string, inner: string, post: string)
    ensures pre + Braced(inner) + post == pre + "{{" + inner + "}}" + post
  {
  }

  /** Finds the first block of t; what follows the block is shorter than t
      (FirstCutSplits: the pieces of a cut put t back together). */
  function FirstCut(t: string): (c: Cut)
    ensures c.Cut? ==> |c.after| + 4 <= |t|
  {
    match FindOpen(t)
    case None => NoBlock
    case Some(i) =>
      var body := t[i + 2..];
      ScanFound(body, Outside, AtCloser);
      match Scan(body, Outside, AtCloser)
      case None => Unclosed
      case Some(j) =>
        Cut(t[..i], body[..j], t[i + j + 4..])
  }

  /** A cut is the text before the first block, the block's interior
      between its braces, and the text after it, in that order. */
  lemma FirstCutSplits(t: string)
    ensures FirstCut(t).Cut? ==> t == FirstCut(t).before + Braced(FirstCut(t).inner) + FirstCut(t).after
    ensures FirstCut(t).Cut? ==> OpensAt(t, |FirstCut(t).before|)
    ensures FirstCut(t).Cut? ==> forall k :: 0 <= k < |FirstCut(t).before| ==> !OpensAt(t, k)
  {
    match FindOpen(t)
    case None =>
    case Some(i) =>
      var body := t[i + 2..];
      ScanFound(body, Outside, AtCloser);
      match Scan(body, Outside, AtCloser)
      case None =>
      case Some(j) =>
        BracedSplit(t, i, j);
  }

  /** A template with `{{` at i and `}}` j characters after it is the text
      before, the delimited interior, and the text after. */
  lemma BracedSplit(t: string, i: nat, j: nat)
    requires OpensAt(t, i)
    requires j < |t[i + 2..]| && StopsAt(t[i + 2..][j..], AtCloser)
    ensures i + j + 4 <= |t|
    ensures t == t[..i] + Braced(t[i + 2..][..j]) + t[i + j + 4..]
  {
    var body := t[i + 2..];
    assert body[j] == t[i + 2 + j] && body[j + 1] == t[i + 3 + j];
    assert body[..j] == t[i + 2..i + 2 + j];
    assert Braced(body[..j]) == t[i..i + j + 4];
    assert t == t[..i] + t[i..i + j + 4] + t[i + j + 4..];
  }

  /** The block a delimited interior stands for. */
  function BlockOf(inner: string): (b: Block)
    ensures WellKinded(b)
  {
    Classify(Trim(inner), Braced(inner))
  }

  /** Splits a template into its blocks, in order.  A `{{` without a matching
      `}}` is a syntax error. */
  function ExtractBlocks(t: string): (r: Result<seq<Block>, Error>)
    ensures r.Err? ==> r.error == SyntaxError(UnclosedBlockMessage)
    decreases |t|
  {
    match FirstCut(t)
    case NoBlock => Ok(TextBlocks(t))
    case Unclosed => Err(SyntaxError(UnclosedBlockMessage))
    case Cut(before, inner, after) =>
      match ExtractBlocks(after)
      case Err(e) => Err(e)
      case Ok(rest) => Ok(TextBlocks(before) + [BlockOf(inner)] + rest)
  }

  predicate AllWellKinded(bs: seq<Block>) {
    forall i :: 0 <= i < |bs| ==> WellKinded(bs[i])
  }

  lemma AllWellKindedConcat(a: seq<Block>, b: Block, c: seq<Block>)
    requires AllWellKinded(a) && WellKinded(b) && AllWellKinded(c)
    ensures AllWellKinded(a + [b] + c)
  {
    var r := a + [b] + c;
    forall i | 0 <= i < |r| ensures WellKinded(r[i]) {
      if i < |a| { assert r[i] == a[i]; }
      else if i == |a| { assert r[i] == b; }
      else { assert r[i] == c[i - |a| - 1]; }
    }
  }

  /** ExtractBlocks unfolded once at a block. */
  lemma ExtractCut(t: string, before: string, inner: string, after: string)
    requires FirstCut(t) == Cut(before, inner, after)
    ensures ExtractBlocks(t)
         == (match ExtractBlocks(after)
             case Ok(bs) => Ok(TextBlocks(before) + [BlockOf(inner)] + bs)
             case Err(e) => Err(e))
  {
  }

  /** A cut whose rest is well kinded gives well kinded blocks. */
  lemma WellKindedCut(t: string, before: string, inner: string, after: string)
    requires FirstCut(t) == Cut(before, inner, after)
    requires ExtractBlocks(t).Ok?
    requires AllWellKinded(ExtractBlocks(after).value)
    ensures AllWellKinded(ExtractBlocks(t).value)
  {
    var rest := ExtractBlocks(after).value;
    ExtractCut(t, before, inner, after);
    assert ExtractBlocks(t).value == TextBlocks(before) + [BlockOf(inner)] + rest;
    TextBlocksWellKinded(before);
    AllWellKindedConcat(TextBlocks(before), BlockOf(inner), rest);
  }

  lemma TextBlocksWellKinded(s: string)
    ensures AllWellKinded(TextBlocks(s))
  {
  }

  /** Every block the tokenizer produces is well kinded. */
  lemma {:induction false} ExtractWellKinded(t: string)
    requires ExtractBlocks(t).Ok?
    ensures AllWellKinded(ExtractBlocks(t).value)
    decreases |t|
  {
    var c := FirstCut(t);
    if c.NoBlock? {
      assert ExtractBlocks(t) == Ok(TextBlocks(t));
    } else {
      assert c.Cut?;
      ExtractWellKinded(c.after);
      WellKindedCut(t, c.before, c.inner, c.after);
    }
  }

  // ---------------------------------------------------------------------
  // Writing blocks back as a template

  /** The template text a block stands for. */
  function Raw(b: Block): string {
    if b.kind == Text then b.content else Braced(b.content)
  }

  function Reassemble(bs: seq<Block>): string
    decreases |bs|
  {
    if bs == [] then [] else Raw(bs[0]) + Reassemble(bs[1..])
  }

  /** Non-empty text without `{{`: single braces are allowed anywhere. */
  predicate BlockFree(s: string) {
    && s != []
    && forall i :: 0 <= i < |s| ==> !OpensAt(s, i)
  }

  /** Block-free text that does not end with `{`, so that nothing it is
      followed by can open a block inside it. */
  predicate CanonicalText(s: string) {
    && BlockFree(s)
    && s[|s| - 1] != BlockStarter
  }

  /** Content the tokenizer reads back as written: already trimmed, of the
      kind its first character names, and closed exactly by the `}}` that
      follows it. */
  predicate CanonicalContent(kind: BlockType, c: string) {
    && c != []
    && !IsWhiteSpace(c[0])
    && !IsWhiteSpace(c[|c| - 1])
    && KindOf(c) == kind
    && EndsAt(c, AtCloser)
  }

  predicate CanonicalBlock(b: Block) {
    if b.kind == Text then CanonicalText(b.content) else CanonicalContent(b.kind, b.content)
  }

  /** A block that ends the template: a final text only has to be free of
      `{{`, since nothing follows it. */
  predicate CanonicalLast(b: Block) {
    if b.kind == Text then BlockFree(b.content) else CanonicalContent(b.kind, b.content)
  }

  /** Canonical block lists: canonical blocks, the last of which may be a
      text ending in `{`, and never two Text blocks side by side. */
  predicate Canonical(bs: seq<Block>) {
    && (forall i :: 0 <= i < |bs| - 1 ==> CanonicalBlock(bs[i]))
    && (bs != [] ==> CanonicalLast(bs[|bs| - 1]))
    && (forall i :: 0 <= i < |bs| - 1 ==> bs[i].kind != Text || bs[i + 1].kind != Text)
  }

  /** A template whose first block is a canonical delimited block, preceded
      by a text that is empty or canonical, is tokenized as that text, that
      block and then the tokens of what follows. */
  lemma ExtractStep(pre: string, b: Block, rest: string)
    requires pre == [] || CanonicalText(pre)
    requires b.kind != Text && CanonicalContent(b.kind, b.content)
    ensures ExtractBlocks(pre + Raw(b) + rest)
         == (match ExtractBlocks(rest)
             case Ok(bs) => Ok(TextBlocks(pre) + [b] + bs)
             case Err(e) => Err(e))
  {
    CutAtBlock(pre, b, rest);
    BlockOfCanonical(b);
    ExtractCut(pre + Raw(b) + rest, pre, b.content, rest);
  }

  /** The interior of a canonical delimited block stands for that block. */
  lemma BlockOfCanonical(b: Block)
    requires b.kind != Text && CanonicalContent(b.kind, b.content)
    ensures BlockOf(b.content) == b
  {
    TrimUntrimmed(b.content);
  }

  /** The first cut of such a template is that text, that block and the
      rest. */
  lemma CutAtBlock(pre: string, b: Block, rest: string)
    requires pre == [] || CanonicalText(pre)
    requires b.kind != Text && CanonicalContent(b.kind, b.content)
    ensures FirstCut(pre + Raw(b) + rest) == Cut(pre, b.content, rest)
  {
    OpensFirstAfter(pre, Raw(b) + rest);
    assert pre + Raw(b) + rest == pre + (Raw(b) + rest);
    CutAtBraced(pre, b.content, rest);
  }

  lemma CutAtBraced(pre: string, c: string, rest: string)
    requires FindOpen(pre + Braced(c) + rest) == Some(|pre|)
    requires EndsAt(c, AtCloser)
    ensures FirstCut(pre + Braced(c) + rest) == Cut(pre, c, rest)
  {
    var t := pre + Braced(c) + rest;
    BracedPieces(pre, c, rest);
    EndsAtFollowed(c, AtCloser, rest);
    CutAt(t, |pre|, |c|);
  }

  /** Where the pieces of `pre{{c}}rest` sit. */
  lemma BracedPieces(pre: string, c: string, rest: string)
    ensures (pre + Braced(c) + rest)[|pre| + 2..] == c + Marker(AtCloser) + rest
    ensures (pre + Braced(c) + rest)[|pre| + 2..][..|c|] == c
    ensures (pre + Braced(c) + rest)[|pre| + |c| + 4..] == rest
    ensures (pre + Braced(c) + rest)[..|pre|] == pre
  {
    var t := pre + Braced(c) + rest;
    assert t == pre + ([BlockStarter, BlockStarter] + (c + Marker(AtCloser) + rest));
  }

  /** FirstCut unfolded at a known opening and closing. */
  lemma CutAt(t: string, i: nat, j: nat)
    requires FindOpen(t) == Some(i)
    requires Scan(t[i + 2..], Outside, AtCloser) == Some(j)
    requires i + j + 4 <= |t|
    ensures FirstCut(t) == Cut(t[..i], t[i + 2..][..j], t[i + j + 4..])
  {
  }

  /** The first `{{` after a canonical text that is followed by a `{{` is
      the one right after it. */
  lemma OpensFirstAfter(pre: string, u: string)
    requires pre == [] || CanonicalText(pre)
    requires |u| >= 2 && u[0] == BlockStarter && u[1] == BlockStarter
    ensures FindOpen(pre + u) == Some(|pre|)
  {
    var t := pre + u;
    assert t[|pre|] == u[0] && t[|pre| + 1] == u[1];
    assert OpensAt(t, |pre|);
    forall j | 0 <= j < |pre| ensures !OpensAt(t, j) {
      assert t[j] == pre[j];
      if j + 1 < |pre| {
        assert !OpensAt(pre, j);
        assert t[j + 1] == pre[j + 1];
      }
    }
  }

  /** A text without `{{` on its own is one Text block, whatever single
      braces it holds. */
  lemma ExtractText(s: string)
    requires BlockFree(s)
    ensures ExtractBlocks(s) == Ok([Block(Text, s)])
  {
    assert FindOpen(s) == None;
    assert FirstCut(s) == NoBlock;
  }

  /** Every suffix of a canonical block list is canonical. */
  lemma CanonicalSuffix(bs: seq<Block>, k: nat)
    requires Canonical(bs) && k <= |bs|
    ensures Canonical(bs[k..])
  {
    var rest := bs[k..];
    forall i | 0 <= i < |rest| - 1 ensures CanonicalBlock(rest[i]) {
      assert rest[i] == bs[i + k];
    }
    if rest != [] {
      assert rest[|rest| - 1] == bs[|bs| - 1];
    }
    forall i | 0 <= i < |rest| - 1 ensures rest[i].kind != Text || rest[i + 1].kind != Text {
      assert rest[i] == bs[i + k] && rest[i + 1] == bs[i + k + 1];
    }
  }

  /** Tokenizing the template written from a canonical block list gives
      that list back. */
  lemma {:induction false} ExtractReassemble(bs: seq<Block>)
    requires Canonical(bs)
    ensures ExtractBlocks(Reassemble(bs)) == Ok(bs)
    decreases |bs|
  {
    if bs == [] {
      assert FindOpen([]) == None;
      assert FirstCut([]) == NoBlock;
    } else if bs[0].kind == Text && |bs| == 1 {
      assert CanonicalLast(bs[0]);
      assert Reassemble(bs) == bs[0].content;
      ExtractText(bs[0].content);
      assert bs == [Block(Text, bs[0].content)];
    } else if bs[0].kind == Text {
      assert CanonicalBlock(bs[0]);
      assert CanonicalContent(bs[1].kind, bs[1].content) by {
        if |bs| == 2 { assert CanonicalLast(bs[1]); } else { assert CanonicalBlock(bs[1]); }
      }
      ReassembleTextFirst(bs);
      BlocksTextFirst(bs);
      CanonicalSuffix(bs, 2);
      ExtractReassemble(bs[2..]);
      ExtractStep(bs[0].content, bs[1], Reassemble(bs[2..]));
    } else {
      assert CanonicalContent(bs[0].kind, bs[0].content) by {
        if |bs| == 1 { assert CanonicalLast(bs[0]); } else { assert CanonicalBlock(bs[0]); }
      }
      ReassembleBlockFirst(bs);
      BlocksFirst(bs);
      CanonicalSuffix(bs, 1);
      ExtractReassemble(bs[1..]);
      ExtractStep([], bs[0], Reassemble(bs[1..]));
    }
  }

  lemma ReassembleBlockFirst(bs: seq<Block>)
    requires bs != [] && bs[0].kind != Text
    ensures Reassemble(bs) == [] + Raw(bs[0]) + Reassemble(bs[1..])
  {
    assert Reassemble(bs) == Raw(bs[0]) + Reassemble(bs[1..]);
  }

  lemma BlocksFirst(bs: seq<Block>)
    requires bs != []
    ensures bs == TextBlocks([]) + [bs[0]] + bs[1..]
  {
    ConsSplit(bs);
  }

  lemma ReassembleTextFirst(bs: seq<Block>)
    requires |bs| >= 2 && bs[0].kind == Text && bs[1].kind != Text
    ensures Reassemble(bs) == bs[0].content + Raw(bs[1]) + Reassemble(bs[2..])
  {
    assert bs[1..][0] == bs[1] && bs[1..][1..] == bs[2..];
    assert Reassemble(bs[1..]) == Raw(bs[1]) + Reassemble(bs[2..]);
  }

  lemma BlocksTextFirst(bs: seq<Block>)
    requires |bs| >= 2 && bs[0].kind == Text && bs[0].content != []
    ensures bs == TextBlocks(bs[0].content) + [bs[1]] + bs[2..]
  {
    ConsSplit(bs);
    ConsSplit(bs[1..]);
    assert bs[1..][1..] == bs[2..];
    assert TextBlocks(bs[0].content) == [bs[0]];
  }
}
