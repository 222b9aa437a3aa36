/** The tokenizer of the Painless translator (`control_plane/src/painless_parser.rs`), for ASCII
    scripts: nothing but whitespace outside string literals is lost. */
module PainlessTokens {
  import opened Prelude

  datatype TokenKind = Identifier | Keyword

  datatype Token = Token(kind: TokenKind, value: string)

  const KEYWORDS := {"if", "null"}

  const DELIMITERS: set<char> := {',', '(', ')', '=', ':', ';', '[', ']', '?', '.', '<', '>', '!', '|', '&'}

  const DELIMITER_KEYWORDS := {"<=", ">=", "?.", "!=", "==", "||", "&&"}

  const QUOTE := '"'

  predicate IsSpace(c: char) { c == ' ' || c == '\n' }

  /** `Token::new`. */
  function TextToken(v: string): Token { Token(if v in KEYWORDS then Keyword else Identifier, v) }

  /** The kind that the tokenizer gives a value. */
  function KindOf(v: string): TokenKind {
    if v in KEYWORDS || IsDelimiter(v) then Keyword else Identifier
  }

  function Tok(v: string): Token { Token(KindOf(v), v) }

  predicate IsDelimiter(v: string) { v in DELIMITER_KEYWORDS || (|v| == 1 && v[0] in DELIMITERS) }

  predicate IsPlainChar(c: char) { c !in DELIMITERS && c != QUOTE && !IsSpace(c) }

  predicate IsPlain(s: string) {
    forall i :: 0 <= i < |s| ==> IsPlainChar(s[i])
  }

  /** A string literal, or one that the script ends in: there is no quote between its first and last character. */
  predicate IsLiteral(s: string) {
    |s| > 0 && s[0] == QUOTE && forall i :: 0 < i < |s| - 1 ==> s[i] != QUOTE
  }

  /** A token is a delimiter, a string literal, or text without delimiters, quotes and spaces; its kind follows from
      its text. */
  predicate IsToken(t: Token) {
    && |t.value| > 0 && t == Tok(t.value)
    && (IsDelimiter(t.value) || IsLiteral(t.value) || IsPlain(t.value))
  }

  predicate WellKinded(ts: seq<Token>) {
    forall i :: 0 <= i < |ts| ==> IsToken(ts[i])
  }

  function Values(ts: seq<Token>): seq<string> {
    seq(|ts|, i requires 0 <= i < |ts| => ts[i].value)
  }

  function Concat(ss: seq<string>): string {
    if |ss| == 0 then "" else Concat(ss[..|ss| - 1]) + ss[|ss| - 1]
  }

  /** The text of a script without whitespace outside literals, and whether its end is inside a literal. */
  function Squeeze(s: string): (string, bool) {
    if |s| == 0 then ("", false)
    else
      var before := Squeeze(s[..|s| - 1]);
      var c := s[|s| - 1];
      if before.1 then (before.0 + [c], c != QUOTE)
      else if IsSpace(c) then before
      else (before.0 + [c], c == QUOTE)
  }

  lemma SqueezeStep(s: string, i: nat)
    requires i < |s|
    ensures var before := Squeeze(s[..i]); var c := s[i];
            Squeeze(s[..i + 1]) ==
            if before.1 then (before.0 + [c], c != QUOTE)
            else if IsSpace(c) then before
            else (before.0 + [c], c == QUOTE)
  {
    assert s[..i + 1][..i] == s[..i];
  }

  /** A pending piece of text holds no delimiter, unless it is an open string literal. */
  predicate Pending(s: string, literal: bool) {
    if literal then |s| > 0 && s[0] == QUOTE && forall i :: 0 < i < |s| ==> s[i] != QUOTE
    else IsPlain(s)
  }

  lemma DelimiterHead(s: string)
    requires s in DELIMITER_KEYWORDS
    ensures |s| == 2 && s[0] in DELIMITERS && s[1] in DELIMITERS
  {
  }

  lemma PendingKind(s: string)
    requires |s| > 0 && (IsLiteral(s) || IsPlain(s))
    ensures IsToken(TextToken(s))
  {
    assert QUOTE !in DELIMITERS;
    if s in DELIMITER_KEYWORDS { DelimiterHead(s); }
  }

  /** Appends a token unless it is empty, as the final filter does. */
  function Push(ts: seq<Token>, t: Token): seq<Token> { if |t.value| == 0 then ts else ts + [t] }

  lemma ConcatPush(ts: seq<Token>, t: Token)
    ensures Concat(Values(Push(ts, t))) == Concat(Values(ts)) + t.value
  {
    if |t.value| != 0 {
      assert Values(ts + [t])[..|ts|] == Values(ts);
    }
  }

  /** How far the tokenizer has come: `script[start..i]` is still to be turned into a token. */
  predicate Lexed(script: string, ts: seq<Token>, start: nat, i: nat, literal: bool) {
    && start <= i <= |script| && WellKinded(ts) && Pending(script[start..i], literal)
    && Squeeze(script[..i]).0 == Concat(Values(ts)) + script[start..i] && Squeeze(script[..i]).1 == literal
  }

  /** Pushing the pending text leaves none. */
  lemma LexText(script: string, ts: seq<Token>, start: nat, i: nat, literal: bool)
    requires Lexed(script, ts, start, i, literal)
    ensures var us := Push(ts, TextToken(script[start..i]));
            WellKinded(us) && Concat(Values(us)) == Squeeze(script[..i]).0
  {
    ConcatPush(ts, TextToken(script[start..i]));
    if start < i { PendingKind(script[start..i]); }
  }

  lemma LexSpace(script: string, ts: seq<Token>, start: nat, i: nat)
    requires Lexed(script, ts, start, i, false) && i < |script| && IsSpace(script[i])
    ensures Lexed(script, Push(ts, TextToken(script[start..i])), i + 1, i + 1, false)
  {
    LexText(script, ts, start, i, false);
    SqueezeStep(script, i);
  }

  /** A delimiter after the pending text. */
  lemma PushDelimiter(script: string, ts: seq<Token>, start: nat, i: nat, d: string)
    requires Lexed(script, ts, start, i, false) && IsDelimiter(d)
    ensures var us := Push(Push(ts, TextToken(script[start..i])), Tok(d));
            WellKinded(us) && Concat(Values(us)) == Squeeze(script[..i]).0 + d
  {
    LexText(script, ts, start, i, false);
    ConcatPush(Push(ts, TextToken(script[start..i])), Tok(d));
  }

  lemma LexDelimiter(script: string, ts: seq<Token>, start: nat, i: nat)
    requires Lexed(script, ts, start, i, false) && i < |script| && script[i] in DELIMITERS
    ensures Lexed(script, Push(Push(ts, TextToken(script[start..i])), Tok([script[i]])), i + 1, i + 1, false)
  {
    PushDelimiter(script, ts, start, i, [script[i]]);
    assert QUOTE !in DELIMITERS && ' ' !in DELIMITERS && '\n' !in DELIMITERS;
    SqueezeStep(script, i);
  }

  lemma LexTwo(script: string, ts: seq<Token>, start: nat, i: nat)
    requires Lexed(script, ts, start, i, false) && i + 1 < |script| && script[i..i + 2] in DELIMITER_KEYWORDS
    ensures Lexed(script, Push(Push(ts, TextToken(script[start..i])), Tok(script[i..i + 2])), i + 2, i + 2, false)
  {
    PushDelimiter(script, ts, start, i, script[i..i + 2]);
    SqueezeTwo(script, i);
  }

  lemma SqueezeTwo(script: string, i: nat)
    requires i + 1 < |script| && script[i..i + 2] in DELIMITER_KEYWORDS && !Squeeze(script[..i]).1
    ensures Squeeze(script[..i + 2]).0 == Squeeze(script[..i]).0 + script[i..i + 2] && !Squeeze(script[..i + 2]).1
  {
    var d := script[i..i + 2];
    DelimiterHead(d);
    assert script[i] == d[0] && script[i + 1] == d[1];
    assert QUOTE !in DELIMITERS && ' ' !in DELIMITERS && '\n' !in DELIMITERS;
    SqueezeStep(script, i);
    SqueezeStep(script, i + 1);
  }

  lemma LexQuote(script: string, ts: seq<Token>, start: nat, i: nat)
    requires Lexed(script, ts, start, i, false) && i < |script| && script[i] == QUOTE
    ensures Lexed(script, Push(ts, TextToken(script[start..i])), i, i + 1, true)
  {
    LexText(script, ts, start, i, false);
    SqueezeStep(script, i);
    assert script[i..i + 1] == [script[i]];
  }

  lemma LexOn(script: string, ts: seq<Token>, start: nat, i: nat, literal: bool)
    requires Lexed(script, ts, start, i, literal) && i < |script|
    requires if literal then script[i] != QUOTE
             else !IsSpace(script[i]) && script[i] !in DELIMITERS && script[i] != QUOTE
    ensures Lexed(script, ts, start, i + 1, literal)
  {
    SqueezeStep(script, i);
    assert script[start..i + 1] == script[start..i] + [script[i]];
  }

  lemma LexClose(script: string, ts: seq<Token>, start: nat, i: nat)
    requires Lexed(script, ts, start, i, true) && i < |script| && script[i] == QUOTE
    ensures Lexed(script, Push(ts, TextToken(script[start..i + 1])), i + 1, i + 1, false)
  {
    var v := script[start..i + 1];
    SqueezeStep(script, i);
    assert v == script[start..i] + [script[i]];
    assert v[0] == script[start..i][0];
    PendingKind(v);
    ConcatPush(ts, TextToken(v));
  }

  // ------------------------------------------------------------ longest match

  /** Where plain text that starts at `p` ends. */
  function PlainEnd(script: string, p: nat): (e: nat)
    requires p <= |script|
    ensures p <= e <= |script| && (e < |script| ==> !IsPlainChar(script[e]))
    ensures forall k :: p <= k < e ==> IsPlainChar(script[k])
    decreases |script| - p
  {
    if p < |script| && IsPlainChar(script[p]) then PlainEnd(script, p + 1) else p
  }

  /** Where a literal ends whose inside starts at `p`: after the next quote, or with the script. */
  function LiteralEnd(script: string, p: nat): (e: nat)
    requires p <= |script|
    ensures p <= e <= |script| && (e < |script| ==> p < e && script[e - 1] == QUOTE)
    ensures forall k :: p <= k < e - 1 ==> script[k] != QUOTE
    decreases |script| - p
  {
    if p == |script| then p else if script[p] == QUOTE then p + 1 else LiteralEnd(script, p + 1)
  }

  /** Where the token that starts at `p` ends. */
  function TokenEnd(script: string, p: nat): (e: nat)
    requires p < |script| && !IsSpace(script[p])
    ensures p < e <= |script|
  {
    if p + 1 < |script| && script[p..p + 2] in DELIMITER_KEYWORDS then p + 2
    else if script[p] in DELIMITERS then p + 1
    else if script[p] == QUOTE then LiteralEnd(script, p + 1)
    else PlainEnd(script, p)
  }

  /** The tokens of the script from `p` on: always the longest one, with whitespace skipped between them. */
  function TokensFrom(script: string, p: nat): seq<Token>
    requires p <= |script|
    decreases |script| - p
  {
    if p == |script| then []
    else if IsSpace(script[p]) then TokensFrom(script, p + 1)
    else [Tok(script[p..TokenEnd(script, p)])] + TokensFrom(script, TokenEnd(script, p))
  }

  /** `script[p..e]` could be a token: a delimiter, plain text, a closed literal, or an open one that the script ends
      in. */
  predicate IsPiece(script: string, p: nat, e: nat)
    requires p < e <= |script|
  {
    || IsDelimiter(script[p..e])
    || IsPlain(script[p..e])
    || (IsLiteral(script[p..e]) && (e == |script| || (e - p > 1 && script[e - 1] == QUOTE)))
  }

  lemma EndIsPiece(script: string, p: nat)
    requires p < |script| && !IsSpace(script[p])
    ensures IsPiece(script, p, TokenEnd(script, p))
  {
    var e := TokenEnd(script, p);
    var v := script[p..e];
    assert v[0] == script[p];
    if script[p] == QUOTE && !(p + 1 < |script| && script[p..p + 2] in DELIMITER_KEYWORDS) {
      forall i | 0 < i < |v| - 1
        ensures v[i] != QUOTE
      {
        assert v[i] == script[p + i];
      }
    }
  }

  /** No longer stretch of the script from there could be a token. */
  lemma EndIsLongest(script: string, p: nat, e: nat)
    requires p < |script| && !IsSpace(script[p]) && TokenEnd(script, p) < e <= |script|
    ensures !IsPiece(script, p, e)
  {
    var t, v := TokenEnd(script, p), script[p..e];
    assert v[0] == script[p] && v[t - p] == script[t];
    if v in DELIMITER_KEYWORDS { TwoEnds(script, p, e); }
    if script[p] == QUOTE {
      QuoteStarts(script, p);
      assert v[t - 1 - p] == script[t - 1];
    }
  }

  lemma QuoteStarts(script: string, p: nat)
    requires p < |script| && script[p] == QUOTE
    ensures TokenEnd(script, p) == LiteralEnd(script, p + 1)
  {
    assert QUOTE !in DELIMITERS;
    if p + 1 < |script| && script[p..p + 2] in DELIMITER_KEYWORDS { TwoEnds(script, p, p + 2); }
  }

  lemma TwoEnds(script: string, p: nat, e: nat)
    requires p <= e <= |script| && script[p..e] in DELIMITER_KEYWORDS
    ensures e == p + 2 && script[p] in DELIMITERS
  {
    DelimiterHead(script[p..e]);
    assert script[p..e][0] == script[p];
  }

  /** What is left to do: the tokens so far and those from `start` on are all of them. */
  predicate Left(script: string, ts: seq<Token>, start: nat) {
    start <= |script| && TokensFrom(script, 0) == ts + TokensFrom(script, start)
  }

  lemma LeftStep(script: string, ts: seq<Token>, start: nat)
    requires Left(script, ts, start) && start < |script| && !IsSpace(script[start])
    ensures var e := TokenEnd(script, start); Left(script, ts + [Tok(script[start..e])], e)
  {
    var e := TokenEnd(script, start);
    AppendAssociates(ts, [Tok(script[start..e])], TokensFrom(script, e));
  }

  lemma LeftSpace(script: string, ts: seq<Token>, start: nat)
    requires Left(script, ts, start) && start < |script| && IsSpace(script[start])
    ensures Left(script, ts, start + 1)
  {
  }

  /** Pending plain text that is followed by something else is the next token. */
  lemma LeftText(script: string, ts: seq<Token>, start: nat, i: nat)
    requires Left(script, ts, start) && start <= i <= |script| && IsPlain(script[start..i])
    requires i < |script| ==> !IsPlainChar(script[i])
    ensures Left(script, Push(ts, TextToken(script[start..i])), i)
  {
    if start < i {
      PlainStarts(script, start, i);
      PendingKind(script[start..i]);
      LeftStep(script, ts, start);
    }
  }

  lemma PlainStarts(script: string, start: nat, i: nat)
    requires start < i <= |script| && IsPlain(script[start..i]) && (i < |script| ==> !IsPlainChar(script[i]))
    ensures !IsSpace(script[start]) && TokenEnd(script, start) == i
  {
    forall k | start <= k < i
      ensures IsPlainChar(script[k])
    {
      assert script[start..i][k - start] == script[k];
    }
    if start + 1 < |script| && script[start..start + 2] in DELIMITER_KEYWORDS { TwoEnds(script, start, start + 2); }
  }

  lemma LeftTextSpace(script: string, ts: seq<Token>, start: nat, i: nat)
    requires Left(script, ts, start) && start <= i < |script| && IsPlain(script[start..i]) && IsSpace(script[i])
    ensures Left(script, Push(ts, TextToken(script[start..i])), i + 1)
  {
    LeftText(script, ts, start, i);
    LeftSpace(script, Push(ts, TextToken(script[start..i])), i);
  }

  lemma LeftDelimiter(script: string, ts: seq<Token>, start: nat, i: nat, e: nat)
    requires Left(script, ts, start) && start <= i < |script| && IsPlain(script[start..i])
    requires !IsPlainChar(script[i]) && !IsSpace(script[i]) && e == TokenEnd(script, i)
    ensures Left(script, Push(Push(ts, TextToken(script[start..i])), Tok(script[i..e])), e)
  {
    LeftText(script, ts, start, i);
    LeftStep(script, Push(ts, TextToken(script[start..i])), i);
  }

  /** A pending literal that the script or the next quote ends is the next token. */
  lemma LeftLiteral(script: string, ts: seq<Token>, start: nat, i: nat, e: nat)
    requires Left(script, ts, start) && start < i <= |script| && Pending(script[start..i], true)
    requires if i == |script| then e == i else script[i] == QUOTE && e == i + 1
    ensures Left(script, Push(ts, TextToken(script[start..e])), e)
  {
    var v := script[start..e];
    assert script[start..i][0] == script[start] == v[0];
    forall k | start < k < i
      ensures script[k] != QUOTE
    {
      assert script[start..i][k - start] == script[k];
    }
    forall k | 0 < k < |v| - 1
      ensures v[k] != QUOTE
    {
      assert v[k] == script[start + k];
    }
    QuoteStarts(script, start);
    assert LiteralEnd(script, start + 1) == e;
    PendingKind(v);
    LeftStep(script, ts, start);
  }

  // ----------------------------------------------------------------- the loop

  /** What the loop keeps. */
  predicate Progress(script: string, ts: seq<Token>, start: nat, i: nat, literal: bool) {
    Lexed(script, ts, start, i, literal) && Left(script, ts, start)
  }

  lemma GoStart(script: string)
    ensures Progress(script, [], 0, 0, false)
  {
    assert script[..0] == "" && Values([]) == [];
  }

  lemma GoSpace(script: string, ts: seq<Token>, start: nat, i: nat)
    requires Progress(script, ts, start, i, false) && i < |script| && IsSpace(script[i])
    ensures Progress(script, Push(ts, TextToken(script[start..i])), i + 1, i + 1, false)
  {
    LexSpace(script, ts, start, i);
    LeftTextSpace(script, ts, start, i);
  }

  lemma GoTwo(script: string, ts: seq<Token>, start: nat, i: nat)
    requires Progress(script, ts, start, i, false) && i + 1 < |script| && script[i..i + 2] in DELIMITER_KEYWORDS
    requires !IsSpace(script[i])
    ensures Progress(script, Push(Push(ts, TextToken(script[start..i])), Tok(script[i..i + 2])), i + 2, i + 2, false)
  {
    LexTwo(script, ts, start, i);
    TwoEnds(script, i, i + 2);
    LeftDelimiter(script, ts, start, i, i + 2);
  }

  lemma GoDelimiter(script: string, ts: seq<Token>, start: nat, i: nat)
    requires Progress(script, ts, start, i, false) && i < |script| && script[i] in DELIMITERS && !IsSpace(script[i])
    requires !(i + 1 < |script| && script[i..i + 2] in DELIMITER_KEYWORDS)
    ensures Progress(script, Push(Push(ts, TextToken(script[start..i])), Tok([script[i]])), i + 1, i + 1, false)
  {
    LexDelimiter(script, ts, start, i);
    assert script[i..i + 1] == [script[i]];
    LeftDelimiter(script, ts, start, i, i + 1);
  }

  lemma GoQuote(script: string, ts: seq<Token>, start: nat, i: nat)
    requires Progress(script, ts, start, i, false) && i < |script| && script[i] == QUOTE
    ensures Progress(script, Push(ts, TextToken(script[start..i])), i, i + 1, true)
  {
    LexQuote(script, ts, start, i);
    LeftText(script, ts, start, i);
  }

  lemma GoOn(script: string, ts: seq<Token>, start: nat, i: nat, literal: bool)
    requires Progress(script, ts, start, i, literal) && i < |script|
    requires if literal then script[i] != QUOTE else IsPlainChar(script[i])
    ensures Progress(script, ts, start, i + 1, literal)
  {
    LexOn(script, ts, start, i, literal);
  }

  lemma GoClose(script: string, ts: seq<Token>, start: nat, i: nat)
    requires Progress(script, ts, start, i, true) && i < |script| && script[i] == QUOTE
    ensures Progress(script, Push(ts, TextToken(script[start..i + 1])), i + 1, i + 1, false)
  {
    LexClose(script, ts, start, i);
    LeftLiteral(script, ts, start, i, i + 1);
  }

  lemma GoEnd(script: string, ts: seq<Token>, start: nat, literal: bool)
    requires Progress(script, ts, start, |script|, literal)
    ensures var us := Push(ts, TextToken(script[start..|script|]));
            us == TokensFrom(script, 0) && WellKinded(us) && Concat(Values(us)) == Squeeze(script).0
  {
    assert script[..|script|] == script;
    LexText(script, ts, start, |script|, literal);
    if literal { LeftLiteral(script, ts, start, |script|, |script|); } else { LeftText(script, ts, start, |script|); }
  }

  predicate AtDelimiter(script: string, i: nat)
    requires i < |script|
  {
    (i + 1 < |script| && script[i..i + 2] in DELIMITER_KEYWORDS) || script[i] in DELIMITERS
  }

  /** The two branches for delimiters; one of two characters comes first. */
  method TakeDelimiter(script: string, before: seq<Token>, from: nat, at: nat) returns (tokens: seq<Token>, i: nat)
    requires Progress(script, before, from, at, false) && at < |script| && !IsSpace(script[at])
             && AtDelimiter(script, at)
    ensures at < i && Progress(script, tokens, i, i, false)
  {
    tokens := Push(before, TextToken(script[from..at]));
    if at + 1 < |script| && script[at..at + 2] in DELIMITER_KEYWORDS {
      GoTwo(script, before, from, at);
      tokens := Push(tokens, Tok(script[at..at + 2]));
      i := at + 2;
    } else {
      GoDelimiter(script, before, from, at);
      tokens := Push(tokens, Tok([script[at]]));
      i := at + 1;
    }
  }

  /** One round of the loop outside a literal. */
  method Advance(script: string, before: seq<Token>, from: nat, at: nat)
    returns (tokens: seq<Token>, start: nat, i: nat, literal: bool)
    requires Progress(script, before, from, at, false) && at < |script|
    ensures at < i && Progress(script, tokens, start, i, literal)
  {
    var c := script[at];
    tokens, literal := before, false;
    if IsSpace(c) {
      GoSpace(script, before, from, at);
      tokens := Push(tokens, TextToken(script[from..at]));
      i := at + 1;
      start := i;
    } else if AtDelimiter(script, at) {
      tokens, i := TakeDelimiter(script, before, from, at);
      start := i;
    } else if c == QUOTE {
      GoQuote(script, before, from, at);
      tokens := Push(tokens, TextToken(script[from..at]));
      start, i, literal := at, at + 1, true;
    } else {
      GoOn(script, before, from, at, false);
      start, i := from, at + 1;
    }
  }

  /** `ParserContext::new`, without line numbers. */
  method Tokenize(script: string) returns (tokens: seq<Token>)
    ensures tokens == TokensFrom(script, 0)
    ensures Concat(Values(tokens)) == Squeeze(script).0
    ensures WellKinded(tokens)
  {
    tokens := [];
    var start: nat, i: nat, literal := 0, 0, false;
    GoStart(script);
    while i < |script|
      invariant i <= |script| && Progress(script, tokens, start, i, literal)
      decreases |script| - i
    {
      if !literal {
        tokens, start, i, literal := Advance(script, tokens, start, i);
      } else if script[i] == QUOTE {
        GoClose(script, tokens, start, i);
        tokens := Push(tokens, TextToken(script[start..i + 1]));
        literal := false;
        i := i + 1;
        start := i;
      } else {
        GoOn(script, tokens, start, i, true);
        i := i + 1;
      }
    }
    GoEnd(script, tokens, start, literal);
    tokens := Push(tokens, TextToken(script[start..i]));
  }
}
