/** Quoted value literals and the quote-aware scan shared by both tokenizers.

    Inside a code block a value literal runs from a quote to the next
    unescaped quote of the same kind; a backslash followed by a quote or a
    backslash is an escape pair and is consumed as a unit.  The template
    tokenizer looks for the closing "}}" and the code tokenizer for the blank
    that ends a token, and neither may stop inside a literal.  Both searches
    are the one function Scan below, told by a Stop value what to look for. */
module QuoteScan {
  import opened Wrappers
  import opened Symbols

  /** Outside every literal, or inside one opened by the quote `delim`. */
  datatype QState = Outside | Inside(delim: char) {
    predicate Valid() {
      Inside? ==> IsQuote(delim)
    }
  }

  /** What a scan looks for: the block closer "}}" or a blank. */
  datatype Stop = AtCloser | AtBlank

  /** The characters a stop can start with. */
  predicate Triggers(k: Stop, c: char) {
    match k
    case AtCloser => c == BlockEnder
    case AtBlank => IsBlankSpace(c)
  }

  predicate StopsAt(s: string, k: Stop) {
    match k
    case AtCloser => |s| >= 2 && s[0] == BlockEnder && s[1] == BlockEnder
    case AtBlank => |s| >= 1 && IsBlankSpace(s[0])
  }

  /** The shortest text that stops a scan. */
  function Marker(k: Stop): string {
    match k
    case AtCloser => [BlockEnder, BlockEnder]
    case AtBlank => [' ']
  }

  /** Width of the unit at the head of s: an escape pair inside a literal is
      consumed whole, everything else one character at a time. */
  function StepWidth(s: string, q: QState): (n: nat)
    requires |s| > 0
    ensures 1 <= n <= |s|
  {
    if q.Inside? && s[0] == EscapeChar && |s| >= 2 && CanBeEscaped(s[1]) then 2 else 1
  }

  /** The state after the unit at the head of s. */
  function NextState(s: string, q: QState): QState
    requires |s| > 0
  {
    match q
    case Outside => if IsQuote(s[0]) then Inside(s[0]) else Outside
    case Inside(d) => if StepWidth(s, q) == 2 then q else if s[0] == d then Outside else q
  }

  function Shift(r: Option<nat>, n: nat): Option<nat> {
    match r
    case None => None
    case Some(j) => Some(j + n)
  }

  /** The position of the first stop of kind k that lies outside every
      literal, when scanning s from state q. */
  function Scan(s: string, q: QState, k: Stop): Option<nat>
    decreases |s|
  {
    if |s| == 0 then None
    else if q.Outside? && StopsAt(s, k) then Some(0)
    else
      var n := StepWidth(s, q);
      Shift(Scan(s[n..], NextState(s, q), k), n)
  }

  /** A scan reports a position where a stop really starts, and reports the
      very first position exactly when the text starts with a stop outside
      literals. */
  lemma {:induction false} ScanFound(s: string, q: QState, k: Stop)
    ensures Scan(s, q, k).Some? ==> Scan(s, q, k).value < |s| && StopsAt(s[Scan(s, q, k).value..], k)
    ensures Scan(s, q, k) == Some(0) <==> q.Outside? && StopsAt(s, k)
    decreases |s|
  {
    if |s| > 0 && !(q.Outside? && StopsAt(s, k)) {
      var n := StepWidth(s, q);
      var r := Scan(s[n..], NextState(s, q), k);
      ScanFound(s[n..], NextState(s, q), k);
      if r.Some? {
        assert s[n..][r.value..] == s[r.value + n..];
      }
    }
  }

  /** x is scanned up to its end and the stop that follows it is found:
      "x ends where the marker starts". */
  predicate EndsAt(x: string, k: Stop) {
    Scan(x + Marker(k), Outside, k) == Some(|x|)
  }

  /** x, scanned from state q, holds no character that could start a stop
      outside a literal, and leaves the scan outside literals at its end.
      Such a text is passed over whole, whatever follows it (PassesOverScan). */
  predicate PassesOver(x: string, q: QState, k: Stop)
    decreases |x|
  {
    if x == [] then q.Outside?
    else
      && !(q.Outside? && Triggers(k, x[0]))
      && PassesOver(x[StepWidth(x, q)..], NextState(x, q), k)
  }

  // ---------------------------------------------------------------------
  // Literal escaping

  /** The text of a single-quoted literal for t: quotes and backslashes are
      preceded by a backslash. */
  function Escape(t: string): string
    decreases |t|
  {
    if t == [] then []
    else (if t[0] == SglQuote || t[0] == EscapeChar then [EscapeChar, t[0]] else [t[0]]) + Escape(t[1..])
  }

  /** The inverse reading: each escape pair stands for its second character. */
  function Unescape(s: string): string
    decreases |s|
  {
    if s == [] then []
    else if s[0] == EscapeChar && |s| >= 2 && CanBeEscaped(s[1]) then [s[1]] + Unescape(s[2..])
    else [s[0]] + Unescape(s[1..])
  }

  /** A single-quoted literal standing for t. */
  function Quote(t: string): (r: string)
    ensures |r| >= 2 && r[0] == SglQuote && r[|r| - 1] == SglQuote
  {
    [SglQuote] + Escape(t) + [SglQuote]
  }

  /** x can stand between the quotes of a literal delimited by d: every d in
      it is part of an escape pair, and it does not end in a lone backslash,
      which would escape the closing quote. */
  predicate LiteralText(x: string, d: char)
    decreases |x|
  {
    if x == [] then true
    else if x[0] == EscapeChar && |x| >= 2 && CanBeEscaped(x[1]) then LiteralText(x[2..], d)
    else x[0] != d && !(x[0] == EscapeChar && |x| == 1) && LiteralText(x[1..], d)
  }

  /** Escaping any text gives the text of a single-quoted literal. */
  lemma {:induction false} EscapeLiteralText(t: string)
    ensures LiteralText(Escape(t), SglQuote)
    decreases |t|
  {
    if t != [] {
      EscapeLiteralText(t[1..]);
      var rest := Escape(t[1..]);
      if t[0] == SglQuote || t[0] == EscapeChar {
        assert Escape(t) == [EscapeChar, t[0]] + rest;
        assert ([EscapeChar, t[0]] + rest)[2..] == rest;
      } else {
        assert Escape(t) == [t[0]] + rest;
        assert ([t[0]] + rest)[1..] == rest;
      }
    }
  }

  /** Reading back an escaped text gives the original. */
  lemma {:induction false} UnescapeEscape(t: string)
    ensures Unescape(Escape(t)) == t
    decreases |t|
  {
    if t != [] {
      UnescapeEscape(t[1..]);
      var rest := Escape(t[1..]);
      if t[0] == SglQuote || t[0] == EscapeChar {
        assert Escape(t) == [EscapeChar, t[0]] + rest;
        assert ([EscapeChar, t[0]] + rest)[2..] == rest;
      } else {
        assert Escape(t) == [t[0]] + rest;
        assert ([t[0]] + rest)[1..] == rest;
      }
    }
  }

  lemma {:induction false} EscapeAppend(a: string, b: string)
    ensures Escape(a + b) == Escape(a) + Escape(b)
    decreases |a|
  {
    if a != [] {
      assert (a + b)[0] == a[0];
      assert (a + b)[1..] == a[1..] + b;
      EscapeAppend(a[1..], b);
    } else {
      assert a + b == b;
    }
  }

  /** Text without quotes or backslashes needs no escaping. */
  lemma {:induction false} EscapePlain(a: string)
    requires forall i :: 0 <= i < |a| ==> a[i] != SglQuote && a[i] != EscapeChar
    ensures Escape(a) == a
    decreases |a|
  {
    if a != [] {
      EscapePlain(a[1..]);
    }
  }

  lemma ShiftShift(r: Option<nat>, a: nat, b: nat)
    ensures Shift(Shift(r, a), b) == Shift(r, a + b)
  {
  }

  // ---------------------------------------------------------------------
  // Texts a scan passes over

  lemma {:induction false} PassesOverScan(x: string, y: string, q: QState, k: Stop)
    requires q.Valid() && PassesOver(x, q, k)
    ensures Scan(x + y, q, k) == Shift(Scan(y, Outside, k), |x|)
    decreases |x|
  {
    if x == [] {
      assert x + y == y;
    } else {
      var n := StepWidth(x, q);
      var q' := NextState(x, q);
      var r0 := Scan(y, Outside, k);
      assert (x + y)[0] == x[0];
      if |x| >= 2 {
        assert (x + y)[1] == x[1];
      }
      assert StepWidth(x + y, q) == n;
      assert NextState(x + y, q) == q';
      assert !StopsAt(x + y, k) || !q.Outside?;
      assert (x + y)[n..] == x[n..] + y;
      PassesOverScan(x[n..], y, q', k);
      ShiftShift(r0, |x| - n, n);
      calc {
        Scan(x + y, q, k);
        Shift(Scan(x[n..] + y, q', k), n);
        Shift(Shift(r0, |x| - n), n);
        Shift(r0, |x|);
      }
    }
  }

  lemma {:induction false} PassesOverConcat(a: string, b: string, q: QState, k: Stop)
    requires q.Valid() && PassesOver(a, q, k) && PassesOver(b, Outside, k)
    ensures PassesOver(a + b, q, k)
    decreases |a|
  {
    if a == [] {
      assert a + b == b;
    } else {
      var n := StepWidth(a, q);
      assert (a + b)[0] == a[0];
      if |a| >= 2 {
        assert (a + b)[1] == a[1];
      }
      assert StepWidth(a + b, q) == n;
      assert NextState(a + b, q) == NextState(a, q);
      assert (a + b)[n..] == a[n..] + b;
      PassesOverConcat(a[n..], b, NextState(a, q), k);
    }
  }

  /** Outside literals, characters that neither open a literal nor can start
      a stop are passed over. */
  lemma {:induction false} PlainPassesOver(a: string, k: Stop)
    requires forall i :: 0 <= i < |a| ==> !IsQuote(a[i]) && !Triggers(k, a[i])
    ensures PassesOver(a, Outside, k)
    decreases |a|
  {
    if a != [] {
      PlainPassesOver(a[1..], k);
    }
  }

  /** An escaped text inside a single-quoted literal is passed over up to the
      closing quote. */
  lemma {:induction false} EscapedPassesOver(t: string, k: Stop)
    ensures PassesOver(Escape(t) + [SglQuote], Inside(SglQuote), k)
    decreases |t|
  {
    var close := [SglQuote];
    if t == [] {
      assert Escape(t) + close == close;
      assert close[1..] == [];
    } else {
      var rest := Escape(t[1..]);
      var head := if t[0] == SglQuote || t[0] == EscapeChar then [EscapeChar, t[0]] else [t[0]];
      var x := Escape(t) + close;
      assert Escape(t) == head + rest;
      assert x == head + (rest + close);
      EscapedPassesOver(t[1..], k);
      assert StepWidth(x, Inside(SglQuote)) == |head|;
      assert x[|head|..] == rest + close;
    }
  }

  /** A single-quoted literal is passed over whole by every scan. */
  lemma QuotePassesOver(t: string, k: Stop)
    ensures PassesOver(Quote(t), Outside, k)
  {
    var x := Quote(t);
    EscapedPassesOver(t, k);
    assert !IsBlankSpace(SglQuote) && SglQuote != BlockEnder;
    assert x[1..] == Escape(t) + [SglQuote];
  }

  lemma PassesOverEndsAt(x: string, k: Stop)
    requires PassesOver(x, Outside, k)
    ensures EndsAt(x, k)
  {
    PassesOverScan(x, Marker(k), Outside, k);
    assert StopsAt(Marker(k), k);
  }

  // ---------------------------------------------------------------------
  // A scan only looks as far as the stop it finds

  /** Text appended after a stop that was found cannot change where the
      scan stops. */
  lemma {:induction false} ScanExtend(x: string, y: string, q: QState, k: Stop)
    requires Scan(x, q, k).Some?
    requires Scan(x, q, k).value + |Marker(k)| <= |x|
    ensures Scan(x + y, q, k) == Scan(x, q, k)
    decreases |x|
  {
    var j := Scan(x, q, k).value;
    if q.Outside? && StopsAt(x, k) {
      assert StopsAt(x + y, k);
    } else {
      assert j >= 1;
      assert |x| >= 2;
      assert (x + y)[0] == x[0] && (x + y)[1] == x[1];
      assert !(q.Outside? && StopsAt(x + y, k));
      var n := StepWidth(x, q);
      assert StepWidth(x + y, q) == n;
      assert NextState(x + y, q) == NextState(x, q);
      assert (x + y)[n..] == x[n..] + y;
      ScanExtend(x[n..], y, NextState(x, q), k);
    }
  }

  /** When x ends where the marker starts, the scan of x followed by the
      marker and anything else stops right after x. */
  lemma EndsAtFollowed(x: string, k: Stop, y: string)
    requires EndsAt(x, k)
    ensures Scan(x + Marker(k) + y, Outside, k) == Some(|x|)
  {
    ScanExtend(x + Marker(k), y, Outside, k);
  }

  /** When x ends where the marker starts, x alone holds no stop. */
  lemma EndsAtNoStop(x: string, k: Stop)
    requires EndsAt(x, k)
    ensures Scan(x, Outside, k) == None
  {
    var r := Scan(x, Outside, k);
    ScanFound(x, Outside, k);
    if r.Some? {
      assert StopsAt(x[r.value..], k);
      ScanExtend(x, Marker(k), Outside, k);
      assert false;
    }
  }
}
