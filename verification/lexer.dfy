/**
 * The lexer (tokenizer.go). The source scans a rune array with an index `i`
 * and links tokens behind a head sentinel; here the runes are a `string`
 * (a sequence of Unicode scalar values) and the token list is a sequence.
 *
 * `ScanAt` is one iteration of the outer loop, `Lex` is the whole scan as a
 * recursive function over the position, and the method `Tokenize` is the
 * loop itself, proved to compute `Lex(input, 0)`.
 */
module Lexer {
  import opened Common
  import opened Decimal

  /** `TokenTypeHead` is the sentinel the source links tokens behind. */
  datatype TokenType = Head | Reserved | Identifier | Number | Eof

  /** `value` is meaningful for Number tokens only; the others carry 0. */
  datatype Token = Token(kind: TokenType, text: string, value: int)

  const EofToken: Token := Token(Eof, "eof", 0)

  /** The multi-rune tokens, tried in this order before anything else. */
  const Prefixes: seq<string> :=
    ["==", "!=", "<=", ">=", "var", "return", "if", "else", "fnc", "for", "break"]

  /** The single-rune Reserved tokens. Note that ',' and '!' are not among them. */
  const SingleChars: string := "+-*/()=<>;{}"

  /** `unicode.IsSpace` on Latin-1; no rune above U+00FF counts as space here. */
  predicate IsSpace(c: char)
    ensures IsSpace(c) ==> !IsLetter(c) && !IsDigit(c) && c !in SingleChars
  {
    var u := c as int;
    (9 <= u <= 13) || u == 32 || u == 0x85 || u == 0xA0
  }

  /** `unicode.IsLetter` on Latin-1; no rune above U+00FF counts as a letter here. */
  predicate IsLetter(c: char)
    ensures IsLetter(c) ==> !IsDigit(c) && c !in SingleChars
  {
    var u := c as int;
    ('a' <= c <= 'z') || ('A' <= c <= 'Z') || u == 0xAA || u == 0xB5 || u == 0xBA
    || (0xC0 <= u <= 0xD6) || (0xD8 <= u <= 0xF6) || (0xF8 <= u <= 0xFF)
  }

  /** `p` occurs at `i` and at least one rune follows it (the guard `i+length < limit`). */
  predicate PrefixAt(s: string, i: nat, p: string) {
    i + |p| < |s| && s[i..i + |p|] == p
  }

  /** The index of the first prefix, from position `k` of `Prefixes` on, that occurs at `i`. */
  function MatchPrefix(s: string, i: nat, k: nat): (r: Option<nat>)
    requires k <= |Prefixes|
    ensures r.Some? ==> k <= r.value < |Prefixes| && PrefixAt(s, i, Prefixes[r.value])
    decreases |Prefixes| - k
  {
    if k == |Prefixes| then None
    else if PrefixAt(s, i, Prefixes[k]) then Some(k)
    else MatchPrefix(s, i, k + 1)
  }

  /** The prefix found is the first one, in the fixed order, that occurs; none found means none occurs. */
  lemma {:induction false} MatchPrefixIsFirst(s: string, i: nat, k: nat)
    requires k <= |Prefixes|
    ensures MatchPrefix(s, i, k).Some? ==>
      forall j :: k <= j < MatchPrefix(s, i, k).value ==> !PrefixAt(s, i, Prefixes[j])
    ensures MatchPrefix(s, i, k).None? <==> forall j :: k <= j < |Prefixes| ==> !PrefixAt(s, i, Prefixes[j])
    decreases |Prefixes| - k
  {
    if k < |Prefixes| && !PrefixAt(s, i, Prefixes[k]) {
      MatchPrefixIsFirst(s, i, k + 1);
    }
  }

  /** Prefixes whose first rune differs from `s[i]` are passed over. */
  lemma {:induction false} MatchPrefixSkip(s: string, i: nat, k: nat, m: nat)
    requires k <= m <= |Prefixes| && i < |s|
    requires forall j :: k <= j < m ==> Prefixes[j][0] != s[i]
    ensures MatchPrefix(s, i, k) == MatchPrefix(s, i, m)
    decreases m - k
  {
    if k < m {
      assert !PrefixAt(s, i, Prefixes[k]);
      MatchPrefixSkip(s, i, k + 1, m);
    }
  }

  /** The end of the maximal run of letters that starts at `i`. */
  function LetterRunEnd(s: string, i: nat): (j: nat)
    requires i <= |s|
    ensures i <= j <= |s|
    ensures forall k :: i <= k < j ==> IsLetter(s[k])
    ensures j == |s| || !IsLetter(s[j])
    decreases |s| - i
  {
    if i < |s| && IsLetter(s[i]) then LetterRunEnd(s, i + 1) else i
  }

  /** The end of the maximal run of decimal digits that starts at `i`. */
  function DigitRunEnd(s: string, i: nat): (j: nat)
    requires i <= |s|
    ensures i <= j <= |s|
    ensures AllDigits(s[i..j])
    ensures j == |s| || !IsDigit(s[j])
    decreases |s| - i
  {
    if i < |s| && IsDigit(s[i]) then DigitRunEnd(s, i + 1) else i
  }

  /** What one iteration of the outer loop does at position `i`. */
  datatype Scan = Skip(next: nat) | Emit(token: Token, next: nat) | Stuck

  /**
   * One iteration of the scan: skip a space, or emit a multi-rune prefix,
   * an identifier, a single-rune Reserved token or a number, in that order
   * of priority; anything else is stuck.
   */
  function ScanAt(s: string, i: nat): (r: Scan)
    requires i < |s|
    ensures r.Skip? ==> r.next == i + 1
    ensures r.Emit? ==> i < r.next <= |s| && r.token.kind != Head && r.token.kind != Eof
  {
    if IsSpace(s[i]) then Skip(i + 1)
    else
      match MatchPrefix(s, i, 0)
      case Some(k) => Emit(Token(Reserved, Prefixes[k], 0), i + |Prefixes[k]|)
      case None =>
        if IsLetter(s[i]) then
          var j := LetterRunEnd(s, i);
          Emit(Token(Identifier, s[i..j], 0), j)
        else if s[i] in SingleChars then
          Emit(Token(Reserved, [s[i]], 0), i + 1)
        else if IsDigit(s[i]) then
          var j := DigitRunEnd(s, i);
          var v := DecimalValue(s[i..j]);
          Emit(Token(Number, NatToString(v), v), j)
        else Stuck
  }

  /** Whitespace produces no token and advances by one rune. */
  lemma ScanAtSpace(s: string, i: nat)
    requires i < |s|
    ensures ScanAt(s, i).Skip? <==> IsSpace(s[i])
  {
  }

  /** A prefix that occurs wins over everything but whitespace, with no word-boundary check. */
  lemma ScanAtPrefix(s: string, i: nat)
    requires i < |s| && !IsSpace(s[i]) && MatchPrefix(s, i, 0).Some?
    ensures ScanAt(s, i).Emit?
    ensures ScanAt(s, i).token == Token(Reserved, Prefixes[MatchPrefix(s, i, 0).value], 0)
    ensures ScanAt(s, i).next == i + |Prefixes[MatchPrefix(s, i, 0).value]|
  {
  }

  /** An identifier is a maximal run of letters, taken only when no prefix occurs. */
  lemma ScanAtIdentifier(s: string, i: nat)
    requires i < |s| && ScanAt(s, i).Emit? && ScanAt(s, i).token.kind == Identifier
    ensures MatchPrefix(s, i, 0).None?
    ensures ScanAt(s, i).token.text == s[i..ScanAt(s, i).next]
    ensures forall k :: i <= k < ScanAt(s, i).next ==> IsLetter(s[k])
    ensures ScanAt(s, i).next == |s| || !IsLetter(s[ScanAt(s, i).next])
  {
  }

  /** A Reserved token is either a prefix or one rune of the fixed set. */
  lemma ScanAtReserved(s: string, i: nat)
    requires i < |s| && ScanAt(s, i).Emit? && ScanAt(s, i).token.kind == Reserved
    ensures || (MatchPrefix(s, i, 0).Some? && ScanAt(s, i).token.text == Prefixes[MatchPrefix(s, i, 0).value])
            || (ScanAt(s, i).token.text == [s[i]] && s[i] in SingleChars && ScanAt(s, i).next == i + 1)
  {
  }

  /** A number is a maximal digit run; its text is the canonical rendering of its value. */
  lemma ScanAtNumber(s: string, i: nat)
    requires i < |s| && ScanAt(s, i).Emit? && ScanAt(s, i).token.kind == Number
    ensures AllDigits(s[i..ScanAt(s, i).next])
    ensures ScanAt(s, i).next == |s| || !IsDigit(s[ScanAt(s, i).next])
    ensures ScanAt(s, i).token.value == DecimalValue(s[i..ScanAt(s, i).next])
    ensures ScanAt(s, i).token.text == NatToString(ScanAt(s, i).token.value)
  {
  }

  /** The scan is stuck exactly on a rune that starts none of the token forms. */
  lemma ScanAtStuck(s: string, i: nat)
    requires i < |s|
    ensures ScanAt(s, i).Stuck? <==>
      !IsSpace(s[i]) && MatchPrefix(s, i, 0).None? && !IsLetter(s[i])
      && s[i] !in SingleChars && !IsDigit(s[i])
  {
  }

  /** The tokens of `s[i..]`, ending with the Eof token, or the first lexing error. */
  function Lex(s: string, i: nat): (r: Result<seq<Token>>)
    requires i <= |s|
    ensures r.Ok? ==> |r.value| >= 1 && r.value[|r.value| - 1] == EofToken
    ensures r.Err? ==> r.error.LexError? && i <= r.error.at < |s|
    decreases |s| - i
  {
    if i == |s| then Ok([EofToken])
    else
      match ScanAt(s, i)
      case Skip(j) => Lex(s, j)
      case Emit(t, j) =>
        var rest :- Lex(s, j);
        Ok([t] + rest)
      case Stuck => Err(LexError(i))
  }

  /** Exactly one Eof token, at the end, and no head sentinel. */
  predicate EofTerminated(ts: seq<Token>) {
    && |ts| >= 1
    && ts[|ts| - 1] == EofToken
    && forall k :: 0 <= k < |ts| - 1 ==> ts[k].kind != Head && ts[k].kind != Eof
  }

  /** `acc` put in front of a successful result; a failure stays a failure. */
  function Prepend(acc: seq<Token>, r: Result<seq<Token>>): Result<seq<Token>> {
    if r.Ok? then Ok(acc + r.value) else r
  }

  /** The prefix loop: tries each prefix in order and stops at the first that occurs. */
  method FindPrefix(runes: string, i: nat) returns (matched: Option<nat>)
    ensures matched == MatchPrefix(runes, i, 0)
  {
    matched := None;
    var k := 0;
    while k < |Prefixes| && matched.None?
      invariant 0 <= k <= |Prefixes|
      invariant matched.None? ==> MatchPrefix(runes, i, 0) == MatchPrefix(runes, i, k)
      invariant matched.Some? ==> MatchPrefix(runes, i, 0) == matched
      decreases |Prefixes| - k, if matched.None? then 1 else 0
    {
      var prefix := Prefixes[k];
      if i + |prefix| < |runes| && runes[i..i + |prefix|] == prefix {
        matched := Some(k);
      } else {
        k := k + 1;
      }
    }
  }

  /** The identifier loop: collects letters from `i` on until a non-letter or the end. */
  method ScanIdentifier(runes: string, i: nat) returns (identifier: string, vi: nat)
    requires i <= |runes|
    ensures vi == LetterRunEnd(runes, i) && identifier == runes[i..vi]
  {
    vi := i;
    identifier := "";
    while vi < |runes| && IsLetter(runes[vi])
      invariant i <= vi <= |runes|
      invariant identifier == runes[i..vi]
      invariant LetterRunEnd(runes, i) == LetterRunEnd(runes, vi)
      decreases |runes| - vi
    {
      identifier := identifier + [runes[vi]];
      vi := vi + 1;
    }
  }

  /** The number loop: extends the digit run while it still reads as a number. */
  method ScanNumber(runes: string, i: nat) returns (value: nat, vi: nat)
    requires i <= |runes|
    ensures vi == DigitRunEnd(runes, i) && value == DecimalValue(runes[i..vi])
  {
    vi := i;
    value := 0;
    while vi < |runes| && IsDigit(runes[vi])
      invariant i <= vi <= |runes|
      invariant AllDigits(runes[i..vi]) && value == DecimalValue(runes[i..vi])
      invariant DigitRunEnd(runes, i) == DigitRunEnd(runes, vi)
      decreases |runes| - vi
    {
      assert runes[i..vi + 1][..vi - i] == runes[i..vi];
      value := value * 10 + DigitValue(runes[vi]);
      vi := vi + 1;
    }
  }

  /** One emitting step of the scan moves its token from the rest to the accumulated list. */
  lemma LexAfterEmit(s: string, i: nat, acc: seq<Token>)
    requires i < |s| && ScanAt(s, i).Emit?
    ensures Prepend(acc, Lex(s, i)) == Prepend(acc + [ScanAt(s, i).token], Lex(s, ScanAt(s, i).next))
  {
    var t, j := ScanAt(s, i).token, ScanAt(s, i).next;
    if Lex(s, j).Ok? {
      assert Lex(s, i) == Ok([t] + Lex(s, j).value);
      assert acc + ([t] + Lex(s, j).value) == (acc + [t]) + Lex(s, j).value;
    }
  }

  /** The tokenizer's loop over the rune array. */
  method Tokenize(input: string) returns (r: Result<seq<Token>>)
    ensures r == Lex(input, 0)
  {
    var runes := input;
    var limit := |runes|;
    var i := 0;
    var tokens: seq<Token> := [];
    if Lex(runes, 0).Ok? {
      assert [] + Lex(runes, 0).value == Lex(runes, 0).value;
    }
    while i < limit
      invariant 0 <= i <= limit
      invariant Lex(runes, 0) == Prepend(tokens, Lex(runes, i))
      decreases limit - i
    {
      var c := runes[i];
      if IsSpace(c) {
        i := i + 1;
        continue;
      }
      var matched := FindPrefix(runes, i);
      var t: Token;
      var next: nat;
      if matched.Some? {
        t, next := Token(Reserved, Prefixes[matched.value], 0), i + |Prefixes[matched.value]|;
      } else if IsLetter(c) {
        var identifier;
        identifier, next := ScanIdentifier(runes, i);
        t := Token(Identifier, identifier, 0);
      } else if c in SingleChars {
        t, next := Token(Reserved, [c], 0), i + 1;
      } else if IsDigit(c) {
        var value;
        value, next := ScanNumber(runes, i);
        t := Token(Number, NatToString(value), value);
      } else {
        return Err(LexError(i));
      }
      assert ScanAt(runes, i) == Emit(t, next);
      LexAfterEmit(runes, i, tokens);
      tokens := tokens + [t];
      i := next;
    }
    r := Ok(tokens + [EofToken]);
  }

  /**
   * A successful scan ends with exactly one Eof token, and every token before
   * it is Reserved, Identifier or Number (never the head sentinel).
   */
  lemma {:induction false} LexShape(s: string, i: nat)
    requires i <= |s|
    decreases |s| - i
    ensures Lex(s, i).Ok? ==>
      EofTerminated(Lex(s, i).value)
  {
    if i < |s| {
      var sc := ScanAt(s, i);
      if sc.Skip? {
        LexShape(s, sc.next);
      } else if sc.Emit? {
        LexShape(s, sc.next);
        if Lex(s, sc.next).Ok? {
          var rest := Lex(s, sc.next).value;
          assert Lex(s, i) == Ok([sc.token] + rest);
        }
      }
    }
  }

  /** The scan yields nothing but Eof exactly when the rest of the input is whitespace. */
  lemma {:induction false} LexBlank(s: string, i: nat)
    requires i <= |s|
    decreases |s| - i
    ensures Lex(s, i) == Ok([EofToken]) <==> forall k :: i <= k < |s| ==> IsSpace(s[k])
  {
    if i < |s| {
      match ScanAt(s, i)
      case Skip(j) =>
        LexBlank(s, j);
      case Emit(t, j) =>
        LexShape(s, j);
      case Stuck =>
    }
  }

  /** A lexing failure names a position at which no token starts. */
  lemma {:induction false} LexErrorAt(s: string, i: nat)
    requires i <= |s|
    decreases |s| - i
    ensures Lex(s, i).Err? ==>
      Lex(s, i).error.LexError? && i <= Lex(s, i).error.at < |s| && ScanAt(s, Lex(s, i).error.at).Stuck?
  {
    if i < |s| {
      match ScanAt(s, i)
      case Skip(j) => LexErrorAt(s, j);
      case Emit(t, j) => LexErrorAt(s, j);
      case Stuck =>
    }
  }

  /** One emitting step, read forwards: the token goes in front of the rest. */
  lemma LexEmitStep(s: string, i: nat, t: Token, j: nat, rest: seq<Token>)
    requires i < |s| && ScanAt(s, i) == Emit(t, j) && Lex(s, j) == Ok(rest)
    ensures Lex(s, i) == Ok([t] + rest)
  {
  }

  /** A keyword prefix is taken even inside a longer word: `iffy` is `if` then `fy`. */
  lemma LexIffy()
    ensures Lex("iffy", 0) == Ok([Token(Reserved, "if", 0), Token(Identifier, "fy", 0), EofToken])
  {
    var s := "iffy";
    MatchPrefixSkip(s, 0, 0, 6);
    assert PrefixAt(s, 0, Prefixes[6]);
    var fy := Token(Identifier, "fy", 0);
    MatchPrefixSkip(s, 2, 0, 8);
    assert !PrefixAt(s, 2, Prefixes[8]) && !PrefixAt(s, 2, Prefixes[9]);
    MatchPrefixSkip(s, 2, 10, 11);
    assert MatchPrefix(s, 2, 0).None?;
    assert IsLetter(s[2]);
    assert LetterRunEnd(s, 2) == 4;
    assert s[2..4] == "fy";
    assert ScanAt(s, 2) == Emit(fy, 4);
    assert Lex(s, 4) == Ok([EofToken]);
    LexEmitStep(s, 2, fy, 4, [EofToken]);
    assert [fy] + [EofToken] == [fy, EofToken];
    assert ScanAt(s, 0) == Emit(Token(Reserved, "if", 0), 2);
    LexEmitStep(s, 0, Token(Reserved, "if", 0), 2, [fy, EofToken]);
    assert [Token(Reserved, "if", 0)] + [fy, EofToken] == [Token(Reserved, "if", 0), fy, EofToken];
  }

  /** A prefix needs a rune after it: a trailing `>=` is `>` then `=`. */
  lemma LexTrailingGreaterEqual()
    ensures Lex(">=", 0) == Ok([Token(Reserved, ">", 0), Token(Reserved, "=", 0), EofToken])
  {
    var s := ">=";
    var gt, eq := Token(Reserved, ">", 0), Token(Reserved, "=", 0);
    assert !PrefixAt(s, 1, Prefixes[0]);
    MatchPrefixSkip(s, 1, 1, 11);
    assert MatchPrefix(s, 1, 0).None?;
    assert s[1] in SingleChars;
    assert ScanAt(s, 1) == Emit(eq, 2);
    assert Lex(s, 2) == Ok([EofToken]);
    LexEmitStep(s, 1, eq, 2, [EofToken]);
    assert [eq] + [EofToken] == [eq, EofToken];
    MatchPrefixSkip(s, 0, 0, 3);
    assert !PrefixAt(s, 0, Prefixes[3]);
    MatchPrefixSkip(s, 0, 4, 11);
    assert MatchPrefix(s, 0, 0).None?;
    assert s[0] in SingleChars;
    assert ScanAt(s, 0) == Emit(gt, 1);
    LexEmitStep(s, 0, gt, 1, [eq, EofToken]);
    assert [gt] + [eq, EofToken] == [gt, eq, EofToken];
  }

  /** With a rune after it, `>=` is one token. */
  lemma LexGreaterEqual()
    ensures Lex(">= ", 0) == Ok([Token(Reserved, ">=", 0), EofToken])
  {
    var s := ">= ";
    var ge := Token(Reserved, ">=", 0);
    assert ScanAt(s, 2) == Skip(3);
    assert Lex(s, 3) == Ok([EofToken]);
    assert Lex(s, 2) == Ok([EofToken]);
    MatchPrefixSkip(s, 0, 0, 3);
    assert s[0..2] == Prefixes[3];
    assert PrefixAt(s, 0, Prefixes[3]);
    assert ScanAt(s, 0) == Emit(ge, 2);
    LexEmitStep(s, 0, ge, 2, [EofToken]);
    assert [ge] + [EofToken] == [ge, EofToken];
  }

  /** ',' starts no token, so even a two-parameter list fails to lex. */
  lemma LexCommaFails()
    ensures Lex("a,b", 0) == Err(LexError(1))
  {
    var s := "a,b";
    MatchPrefixSkip(s, 0, 0, 11);
    assert LetterRunEnd(s, 0) == 1;
    assert ScanAt(s, 0) == Emit(Token(Identifier, "a", 0), 1);
    MatchPrefixSkip(s, 1, 0, 11);
    assert ScanAt(s, 1) == Stuck;
  }

  /** A lone '!' starts no token. */
  lemma LexBangFails()
    ensures Lex("!", 0) == Err(LexError(0))
  {
    var s := "!";
    assert !PrefixAt(s, 0, Prefixes[1]);
    MatchPrefixSkip(s, 0, 0, 1);
    MatchPrefixSkip(s, 0, 2, 11);
    assert ScanAt(s, 0) == Stuck;
  }

  /** A number token's text is its value rendered canonically: `007` becomes `7`. */
  lemma LexLeadingZeros()
    ensures Lex("007", 0) == Ok([Token(Number, "7", 7), EofToken])
  {
    var s := "007";
    var seven := Token(Number, "7", 7);
    MatchPrefixSkip(s, 0, 0, 11);
    assert MatchPrefix(s, 0, 0).None?;
    assert DigitRunEnd(s, 0) == 3;
    assert s[0..3] == s;
    LeadingZerosDropped();
    assert DecimalValue(s) == 7 by {
      assert s[..2] == "00";
      assert "00"[..1] == "0";
    }
    assert ScanAt(s, 0) == Emit(seven, 3);
    assert Lex(s, 3) == Ok([EofToken]);
    LexEmitStep(s, 0, seven, 3, [EofToken]);
    assert [seven] + [EofToken] == [seven, EofToken];
  }
}
