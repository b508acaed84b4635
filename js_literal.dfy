/** fixup_js_literal_with_comments: the token-level pass that turns a
    JavaScript object literal into text a strict JSON parser accepts.  The
    token stream (Python's `tokenize` output) is the input; the repaired token
    stream, before `untokenize` joins it back into text, is the output. */
module JsLiteral {
  import opened Wrappers

  /** The token kinds the pass looks at; every other kind (NUMBER, COMMENT,
      ENDMARKER, ...) is `Other` or `Number` and passes through. */
  datatype TokenKind = Name | String | Number | Op | Newline | Nl | Other

  datatype Token = Token(kind: TokenKind, text: string)

  /** The six names that are left unquoted. */
  const JsonLiterals: set<string> := {"true", "false", "null", "-Infinity", "Infinity", "NaN"}

  /** `result.pop()` on an empty list. */
  datatype RewriteError = IndexError

  /** The loop's variables: the two comment flags, `last_token`, and the
      output list `result`. */
  datatype State = State(slineComment: bool, mlineComment: bool, lastToken: string, result: seq<Token>)

  const Init := State(false, false, "", [])

  predicate Normal(s: State) { !s.slineComment && !s.mlineComment }

  /** `tokval[1:-1]`: the text between the first and last character, empty
      when there are fewer than two. */
  function InnerText(s: string): (r: string)
    ensures |s| >= 2 ==> r == s[1..|s| - 1]
    ensures |s| < 2 ==> r == []
  {
    if |s| >= 2 then s[1..|s| - 1] else []
  }

  /** `.replace('"', '\\"')`. */
  function EscapeQuotes(s: string): (r: string)
    ensures |r| >= |s|
  {
    if s == [] then []
    else (if s[0] == '"' then ['\\', '"'] else [s[0]]) + EscapeQuotes(s[1..])
  }

  /** The NAME repair: a bare word other than the six literals becomes a
      double-quoted STRING. */
  function QuoteName(t: Token): Token
    requires t.kind == Name
  {
    if t.text in JsonLiterals then t else Token(String, "\"" + t.text + "\"")
  }

  /** The STRING repair: a single-quoted string is re-quoted with double
      quotes, embedded double quotes escaped; any other string is kept. */
  function RequoteString(t: Token): Token
    requires t.kind == String
  {
    if |t.text| > 0 && t.text[0] == '\'' then Token(String, "\"" + EscapeQuotes(InnerText(t.text)) + "\"")
    else t
  }

  /** What the pass emits for a token outside comments, when no trailing comma
      or comment opener is involved. */
  function Repair(t: Token): Token {
    match t.kind
    case Name => QuoteName(t)
    case String => RequoteString(t)
    case _ => t
  }

  function Emit(s: State, t: Token): State {
    s.(result := s.result + [t], lastToken := t.text)
  }

  predicate IsCloser(t: Token) { t.kind == Op && (t.text == "}" || t.text == "]") }

  /** One iteration of the loop, branch for branch. */
  function Step(s: State, t: Token): Result<State, RewriteError> {
    if s.slineComment then
      Ok(if t.kind == Newline || t.kind == Nl then s.(slineComment := false) else s)
    else if s.mlineComment then
      Ok(s.(mlineComment := !(s.lastToken == "*" && t.text == "/"), lastToken := t.text))
    else if t.kind == Name then Ok(Emit(s, QuoteName(t)))
    else if t.kind == String then Ok(Emit(s, RequoteString(t)))
    else if IsCloser(t) then
      var kept := if |s.result| > 0 && s.result[|s.result| - 1].text == "," then s.result[..|s.result| - 1] else s.result;
      Ok(Emit(s.(result := kept), t))
    else if t.text == "//" then Ok(s.(slineComment := true))
    else if s.lastToken == "/" && t.text == "*" then
      if |s.result| == 0 then Err(IndexError)
      else Ok(s.(result := s.result[..|s.result| - 1], mlineComment := true))
    else Ok(Emit(s, t))
  }

  /** The loop over a token stream from state `s`. */
  function Run(s: State, ts: seq<Token>): Result<State, RewriteError> {
    if ts == [] then Ok(s)
    else
      match Run(s, ts[..|ts| - 1])
      case Err(e) => Err(e)
      case Ok(s') => Step(s', ts[|ts| - 1])
  }

  /** The whole pass: the emitted tokens, or the IndexError. */
  function Fixup(ts: seq<Token>): Result<seq<Token>, RewriteError> {
    match Run(Init, ts)
    case Ok(s) => Ok(s.result)
    case Err(e) => Err(e)
  }

  /** fixup_js_literal_with_comments, up to the final `untokenize`. */
  method FixupJsLiteralWithComments(tokens: seq<Token>) returns (r: Result<seq<Token>, RewriteError>)
    ensures r == Fixup(tokens)
  {
    var result: seq<Token> := [];
    var slineComment := false;
    var mlineComment := false;
    var lastToken := "";
    var i := 0;
    while i < |tokens|
      invariant 0 <= i <= |tokens|
      invariant Run(Init, tokens[..i]) == Ok(State(slineComment, mlineComment, lastToken, result))
    {
      var kind, text := tokens[i].kind, tokens[i].text;
      assert tokens[..i + 1][..i] == tokens[..i];
      i := i + 1;
      if slineComment {
        if kind == Newline || kind == Nl {
          slineComment := false;
        }
        continue;
      }
      if mlineComment {
        if lastToken == "*" && text == "/" {
          mlineComment := false;
        }
        lastToken := text;
        continue;
      }
      if kind == Name {
        if text !in JsonLiterals {
          kind := String;
          text := "\"" + text + "\"";
        }
      } else if kind == String {
        if |text| > 0 && text[0] == '\'' {
          text := "\"" + EscapeQuotes(InnerText(text)) + "\"";
        }
      } else if kind == Op && (text == "}" || text == "]") {
        if |result| > 0 && result[|result| - 1].text == "," {
          result := result[..|result| - 1];
        }
      } else if text == "//" {
        slineComment := true;
        continue;
      } else if lastToken == "/" && text == "*" {
        if |result| == 0 {
          r := Err(IndexError);
          RunErrSticks(Init, tokens, i);
          return;
        }
        result := result[..|result| - 1];
        mlineComment := true;
        continue;
      }
      result := result + [Token(kind, text)];
      lastToken := text;
    }
    assert tokens[..i] == tokens;
    r := Ok(result);
  }

  // ---------------------------------------------------------------------
  // Running the pass over concatenated streams

  lemma {:induction false} RunErrSticks(s: State, ts: seq<Token>, i: nat)
    requires i <= |ts|
    requires Run(s, ts[..i]).Err?
    ensures Run(s, ts) == Run(s, ts[..i])
    decreases |ts| - i
  {
    if i < |ts| {
      assert ts[..i + 1][..i] == ts[..i];
      RunErrSticks(s, ts, i + 1);
    } else {
      assert ts[..i] == ts;
    }
  }

  /** Running over `a + b` is running over `a`, then over `b`. */
  lemma {:induction false} RunAppend(s: State, a: seq<Token>, b: seq<Token>)
    ensures Run(s, a + b) == match Run(s, a) case Err(e) => Err(e) case Ok(s') => Run(s', b)
    decreases |b|
  {
    if b == [] {
      assert a + b == a;
    } else {
      var b' := b[..|b| - 1];
      assert (a + b)[..|a + b| - 1] == a + b';
      assert (a + b)[|a + b| - 1] == b[|b| - 1];
      RunAppend(s, a, b');
    }
  }

  lemma RunSingle(s: State, t: Token)
    ensures Run(s, [t]) == Step(s, t)
  {
    assert [t][..0] == [];
  }

  // ---------------------------------------------------------------------
  // Invariants of the loop

  /** The two comment flags are never both set, and the output never holds
      more tokens than were read. */
  lemma {:induction false} RunInvariant(ts: seq<Token>)
    ensures Run(Init, ts).Ok? ==>
              var s := Run(Init, ts).value;
              !(s.slineComment && s.mlineComment) && |s.result| <= |ts|
  {
    if ts != [] {
      RunInvariant(ts[..|ts| - 1]);
    }
  }

  // ---------------------------------------------------------------------
  // Quoting repairs, against RFC 8259 section 7

  /** A character that may stand for itself inside a JSON string. */
  predicate Unescaped(c: char) {
    c as int >= 0x20 && c != '"' && c != '\\'
  }

  predicate IsHexDigit(c: char) {
    ('0' <= c <= '9') || ('a' <= c <= 'f') || ('A' <= c <= 'F')
  }

  function HexValue(c: char): nat
    requires IsHexDigit(c)
  {
    if '0' <= c <= '9' then c as int - '0' as int
    else if 'a' <= c <= 'f' then c as int - 'a' as int + 10
    else c as int - 'A' as int + 10
  }

  /** The two-character escapes of RFC 8259 section 7, `\u` excepted. */
  function ShortEscape(e: char): Option<char> {
    if e == '"' then Some('"') else if e == '\\' then Some('\\') else if e == '/' then Some('/')
    else if e == 'b' then Some(8 as char) else if e == 'f' then Some(12 as char)
    else if e == 'n' then Some('\n') else if e == 'r' then Some('\r') else if e == 't' then Some('\t')
    else None
  }

  /** `\u` followed by four hex digits. */
  predicate IsUnicodeEscape(s: string) {
    |s| >= 6 && s[0] == '\\' && s[1] == 'u' && IsHexDigit(s[2]) && IsHexDigit(s[3]) && IsHexDigit(s[4]) && IsHexDigit(s[5])
  }

  function UnicodeEscapeValue(s: string): nat
    requires IsUnicodeEscape(s)
  {
    ((HexValue(s[2]) * 16 + HexValue(s[3])) * 16 + HexValue(s[4])) * 16 + HexValue(s[5])
  }

  function Prepend(c: char, rest: Option<string>): Option<string> {
    match rest case Some(r) => Some([c] + r) case None => None
  }

  /** The characters a JSON string body stands for: the escapes of RFC 8259 section 7
      decoded, `None` for text that is not a valid body.  A `\u` escape naming
      a surrogate half is not decoded. */
  function DecodeJsonBody(s: string): Option<string>
  {
    if s == [] then Some([])
    else if IsUnicodeEscape(s) then
      var v := UnicodeEscapeValue(s);
      if 0xD800 <= v < 0xE000 then None else Prepend(v as char, DecodeJsonBody(s[6..]))
    else if s[0] == '\\' then
      if |s| >= 2 && ShortEscape(s[1]).Some? then Prepend(ShortEscape(s[1]).value, DecodeJsonBody(s[2..]))
      else None
    else if Unescaped(s[0]) then Prepend(s[0], DecodeJsonBody(s[1..]))
    else None
  }

  /** The value of a JSON string token, `None` when the text is not one. */
  function JsonStringValue(t: string): Option<string> {
    if |t| >= 2 && t[0] == '"' && t[|t| - 1] == '"' then DecodeJsonBody(t[1..|t| - 1]) else None
  }

  /** Text a JSON string body can carry without escapes. */
  predicate PlainText(s: string) { forall k :: 0 <= k < |s| ==> Unescaped(s[k]) }

  lemma {:induction false} PlainTextDecodesToItself(s: string)
    requires PlainText(s)
    ensures DecodeJsonBody(s) == Some(s)
  {
    if s != [] {
      PlainTextDecodesToItself(s[1..]);
      assert [s[0]] + s[1..] == s;
    }
  }

  lemma {:induction false} EscapeQuotesDecodes(s: string)
    requires forall k :: 0 <= k < |s| ==> s[k] as int >= 0x20 && s[k] != '\\'
    ensures DecodeJsonBody(EscapeQuotes(s)) == Some(s)
  {
    if s != [] {
      EscapeQuotesDecodes(s[1..]);
      var e := EscapeQuotes(s);
      if s[0] == '"' {
        assert e == ['\\', '"'] + EscapeQuotes(s[1..]);
        assert e[2..] == EscapeQuotes(s[1..]);
      } else {
        assert e == [s[0]] + EscapeQuotes(s[1..]);
        assert e[1..] == EscapeQuotes(s[1..]);
      }
      assert [s[0]] + s[1..] == s;
    }
  }

  /** A bare word other than the six literals comes out as a JSON string
      whose value is the word; the six literals come out unchanged. */
  lemma QuotedNameIsJsonString(t: Token)
    requires t.kind == Name && PlainText(t.text)
    ensures t.text !in JsonLiterals ==>
              QuoteName(t).kind == String && JsonStringValue(QuoteName(t).text) == Some(t.text)
    ensures t.text in JsonLiterals ==> QuoteName(t) == t
  {
    if t.text !in JsonLiterals {
      var q := "\"" + t.text + "\"";
      assert q[1..|q| - 1] == t.text;
      PlainTextDecodesToItself(t.text);
    }
  }

  /** A single-quoted string without backslashes comes out as a JSON string
      with the same value, embedded double quotes included. */
  lemma SingleQuotedIsJsonString(inner: string)
    requires forall k :: 0 <= k < |inner| ==> inner[k] as int >= 0x20 && inner[k] != '\\'
    ensures var out := RequoteString(Token(String, "'" + inner + "'"));
            out.kind == String && JsonStringValue(out.text) == Some(inner)
  {
    var t := "'" + inner + "'";
    assert InnerText(t) == inner;
    var q := "\"" + EscapeQuotes(inner) + "\"";
    assert q[1..|q| - 1] == EscapeQuotes(inner);
    EscapeQuotesDecodes(inner);
  }

  lemma {:induction false} EscapeQuotesNoQuote(s: string)
    requires '"' !in s
    ensures EscapeQuotes(s) == s
  {
    if s != [] {
      assert '"' !in s[1..];
      EscapeQuotesNoQuote(s[1..]);
      assert [s[0]] + s[1..] == s;
    }
  }

  lemma {:induction false} EscapeQuotesAppend(a: string, b: string)
    ensures EscapeQuotes(a + b) == EscapeQuotes(a) + EscapeQuotes(b)
  {
    if a != [] {
      assert (a + b)[1..] == a[1..] + b;
      EscapeQuotesAppend(a[1..], b);
    } else {
      assert a + b == b;
    }
  }

  /** Plain text in front of an invalid body leaves it invalid. */
  lemma {:induction false} PlainPrefixKeepsInvalid(pre: string, rest: string)
    requires PlainText(pre) && DecodeJsonBody(rest) == None
    ensures DecodeJsonBody(pre + rest) == None
  {
    if pre != [] {
      assert (pre + rest)[1..] == pre[1..] + rest;
      PlainPrefixKeepsInvalid(pre[1..], rest);
    } else {
      assert pre + rest == rest;
    }
  }

  lemma EscapedInner(pre: string, post: string)
    requires PlainText(pre)
    ensures EscapeQuotes(pre + "\\'" + post) == pre + ("\\'" + EscapeQuotes(post))
  {
    var escaped := "\\'";
    EscapeQuotesAppend(pre, escaped + post);
    EscapeQuotesAppend(escaped, post);
    EscapeQuotesNoQuote(pre);
    EscapeQuotesNoQuote(escaped);
    assert pre + escaped + post == pre + (escaped + post);
  }

  /** A backslash-escaped single quote is carried over as `\'`, which is not
      a JSON escape: the repaired token is not a JSON string, whatever follows. */
  lemma EscapedSingleQuoteNotRepaired(pre: string, post: string)
    requires PlainText(pre)
    ensures var out := RequoteString(Token(String, "'" + pre + "\\'" + post + "'"));
            JsonStringValue(out.text) == None
  {
    var escaped := "\\'";
    var inner := pre + escaped + post;
    var token := "'" + inner + "'";
    assert token == "'" + pre + "\\'" + post + "'";
    assert InnerText(token) == inner;
    var rest := escaped + EscapeQuotes(post);
    EscapedInner(pre, post);
    assert !IsUnicodeEscape(rest) && rest[0] == '\\' && ShortEscape(rest[1]) == None;
    PlainPrefixKeepsInvalid(pre, rest);
    var out := "\"" + (pre + rest) + "\"";
    assert out[1..|out| - 1] == pre + rest;
  }

  // ---------------------------------------------------------------------
  // Trailing commas

  /** On `}` or `]` exactly one trailing comma, the last emitted token, is
      dropped before the closer is appended; otherwise nothing is dropped. */
  lemma CloserDropsOneComma(s: State, t: Token)
    requires Normal(s) && IsCloser(t)
    ensures Step(s, t).Ok?
    ensures var out := Step(s, t).value.result;
            if |s.result| > 0 && s.result[|s.result| - 1].text == ","
            then out == s.result[..|s.result| - 1] + [t]
            else out == s.result + [t]
  {
  }

  /** A comma separated from the closer by a line-break token is kept. */
  lemma CommaBeforeLineBreakKept()
    ensures Fixup([Token(Op, ","), Token(Nl, "\n"), Token(Op, "]")])
         == Ok([Token(Op, ","), Token(Nl, "\n"), Token(Op, "]")])
  {
    var a, b, c := Token(Op, ","), Token(Nl, "\n"), Token(Op, "]");
    var ts := [a, b, c];
    assert ts[..2] == [a, b] && ts[..2][..1] == [a] && [a][..0] == [];
    var s1 := Emit(Init, a);
    assert Run(Init, [a]) == Ok(s1);
    var s2 := Emit(s1, b);
    assert Step(s1, b) == Ok(s2);
    assert Run(Init, [a, b]) == Ok(s2);
    assert s2.result == [a, b];
    assert Step(s2, c) == Ok(Emit(s2, c));
    assert Run(Init, ts) == Ok(Emit(s2, c));
    assert Emit(s2, c).result == ts;
  }

  // ---------------------------------------------------------------------
  // Comments

  predicate NoLineBreak(ts: seq<Token>) {
    forall k :: 0 <= k < |ts| ==> ts[k].kind != Newline && ts[k].kind != Nl
  }

  lemma {:induction false} LineCommentBodySkipped(s: State, body: seq<Token>)
    requires s.slineComment && NoLineBreak(body)
    ensures Run(s, body) == Ok(s)
  {
    if body != [] {
      LineCommentBodySkipped(s, body[..|body| - 1]);
    }
  }

  /** `//`, the tokens up to the next line break and the line break itself
      are dropped, and the state is exactly as before the comment. */
  lemma LineCommentDropped(s: State, open: Token, body: seq<Token>, eol: Token)
    requires Normal(s)
    requires open.text == "//" && open.kind != Name && open.kind != String
    requires NoLineBreak(body) && (eol.kind == Newline || eol.kind == Nl)
    ensures Run(s, [open] + body + [eol]) == Ok(s)
  {
    var s1 := s.(slineComment := true);
    RunSingle(s, open);
    LineCommentBodySkipped(s1, body);
    RunAppend(s, [open], body);
    RunAppend(s, [open] + body, [eol]);
    RunSingle(s1, eol);
  }

  /** Removing a line comment from the input leaves the output unchanged. */
  lemma LineCommentRemoved(pre: seq<Token>, open: Token, body: seq<Token>, eol: Token, post: seq<Token>)
    requires Run(Init, pre).Ok? && Normal(Run(Init, pre).value)
    requires open.text == "//" && open.kind != Name && open.kind != String
    requires NoLineBreak(body) && (eol.kind == Newline || eol.kind == Nl)
    ensures Fixup(pre + ([open] + body + [eol]) + post) == Fixup(pre + post)
  {
    var s := Run(Init, pre).value;
    LineCommentDropped(s, open, body, eol);
    RunAppend(Init, pre, [open] + body + [eol]);
    RunAppend(Init, pre + ([open] + body + [eol]), post);
    RunAppend(Init, pre, post);
  }

  /** No `*` immediately followed by `/` inside the comment body. */
  predicate NoCloser(body: seq<Token>) {
    forall k :: 0 < k < |body| ==> !(body[k - 1].text == "*" && body[k].text == "/")
  }

  lemma {:induction false} BlockCommentBodySkipped(s: State, body: seq<Token>)
    requires !s.slineComment && s.mlineComment && s.lastToken != "*" && NoCloser(body)
    ensures Run(s, body) == Ok(s.(lastToken := if body == [] then s.lastToken else body[|body| - 1].text))
  {
    if body != [] {
      var init := body[..|body| - 1];
      var x := body[|body| - 1];
      assert NoCloser(init);
      BlockCommentBodySkipped(s, init);
      var last := if init == [] then s.lastToken else init[|init| - 1].text;
      if init != [] {
        assert init[|init| - 1] == body[|body| - 2];
        assert !(body[|body| - 2].text == "*" && body[|body| - 1].text == "/");
      }
      assert !(last == "*" && x.text == "/");
      assert Step(s.(lastToken := last), x) == Ok(s.(lastToken := x.text));
    }
  }

  /** `/` then `*` from a normal state: the `/` is emitted and popped again
      and a block comment is open. */
  lemma BlockCommentOpened(s: State, slash: Token, star: Token)
    requires Normal(s)
    requires slash.text == "/" && slash.kind != Name && slash.kind != String
    requires star.text == "*" && star.kind != Name && star.kind != String
    ensures Run(s, [slash, star]) == Ok(s.(lastToken := "/", mlineComment := true))
  {
    var s1 := Emit(s, slash);
    assert s1.result[..|s1.result| - 1] == s.result;
    RunAppend(s, [slash], [star]);
    RunSingle(s, slash);
    RunSingle(s1, star);
    assert [slash] + [star] == [slash, star];
  }

  /** `*` then `/` inside a block comment close it. */
  lemma BlockCommentClosed(s: State, close1: Token, close2: Token)
    requires !s.slineComment && s.mlineComment
    requires close1.text == "*" && close2.text == "/"
    ensures Run(s, [close1, close2]) == Ok(s.(lastToken := "/", mlineComment := false))
  {
    RunAppend(s, [close1], [close2]);
    RunSingle(s, close1);
    RunSingle(s.(lastToken := "*"), close2);
    assert [close1] + [close2] == [close1, close2];
  }

  /** `/`, `*`, a body without `*` `/`, then `*` `/`: the emitted `/` is popped
      again and everything through the closing `/` is dropped.  The one trace
      left is `last_token`, which is `/` although no `/` was emitted. */
  lemma BlockCommentDropped(s: State, slash: Token, star: Token, body: seq<Token>, close1: Token, close2: Token)
    requires Normal(s)
    requires slash.text == "/" && slash.kind != Name && slash.kind != String
    requires star.text == "*" && star.kind != Name && star.kind != String
    requires NoCloser(body) && close1.text == "*" && close2.text == "/"
    ensures Run(s, [slash, star] + body + [close1, close2]) == Ok(s.(lastToken := "/"))
  {
    var s2 := s.(lastToken := "/", mlineComment := true);
    BlockCommentOpened(s, slash, star);
    BlockCommentBodySkipped(s2, body);
    var s3 := s2.(lastToken := if body == [] then "/" else body[|body| - 1].text);
    RunAppend(s, [slash, star], body);
    RunAppend(s, [slash, star] + body, [close1, close2]);
    BlockCommentClosed(s3, close1, close2);
  }

  predicate NoStar(ts: seq<Token>) { forall k :: 0 <= k < |ts| ==> ts[k].text != "*" }

  /** Two states that differ only in `last_token` produce the same output on
      a stream without `*`: the stale `/` a block comment leaves behind is
      harmless unless a `*` comes next. */
  lemma {:induction false} StaleLastTokenHarmless(s1: State, s2: State, ts: seq<Token>)
    requires !s1.mlineComment && s2 == s1.(lastToken := s2.lastToken)
    requires NoStar(ts)
    ensures Run(s1, ts).Ok? && Run(s2, ts).Ok?
    ensures !Run(s1, ts).value.mlineComment
    ensures Run(s2, ts).value == Run(s1, ts).value.(lastToken := Run(s2, ts).value.lastToken)
  {
    if ts != [] {
      StaleLastTokenHarmless(s1, s2, ts[..|ts| - 1]);
    }
  }

  /** Removing a block comment from the input leaves the output unchanged,
      provided the token right after it is neither `*` nor `//`: the stale
      `last_token` is overwritten by the next token emitted. */
  lemma BlockCommentRemoved(pre: seq<Token>, comment: seq<Token>, post: seq<Token>,
                            slash: Token, star: Token, body: seq<Token>, close1: Token, close2: Token)
    requires Run(Init, pre).Ok? && Normal(Run(Init, pre).value)
    requires comment == [slash, star] + body + [close1, close2]
    requires slash.text == "/" && slash.kind != Name && slash.kind != String
    requires star.text == "*" && star.kind != Name && star.kind != String
    requires NoCloser(body) && close1.text == "*" && close2.text == "/"
    requires post == [] || (post[0].text != "*" && post[0].text != "//")
    ensures Fixup(pre + comment + post) == Fixup(pre + post)
  {
    var s := Run(Init, pre).value;
    var stale := s.(lastToken := "/");
    BlockCommentDropped(s, slash, star, body, close1, close2);
    RunAppend(Init, pre, comment);
    RunAppend(Init, pre + comment, post);
    RunAppend(Init, pre, post);
    if post != [] {
      StaleLastTokenOverwritten(s, stale, post);
    }
  }

  /** From a normal state, a first token other than `*` and `//` overwrites
      `last_token`, so what was there before no longer matters. */
  lemma StaleLastTokenOverwritten(s1: State, s2: State, ts: seq<Token>)
    requires Normal(s1) && s2 == s1.(lastToken := s2.lastToken)
    requires ts != [] && ts[0].text != "*" && ts[0].text != "//"
    ensures Run(s1, ts) == Run(s2, ts)
  {
    assert ts == [ts[0]] + ts[1..];
    RunAppend(s1, [ts[0]], ts[1..]);
    RunAppend(s2, [ts[0]], ts[1..]);
    RunSingle(s1, ts[0]);
    RunSingle(s2, ts[0]);
  }

  /** The stale `last_token` does matter before a `*`: after a comment that
      emptied the output, `/* */*` makes `result.pop()` fail. */
  lemma PopOnEmptyOutputFails()
    ensures Fixup([Token(Op, "/"), Token(Op, "*"), Token(Op, "*"), Token(Op, "/"), Token(Op, "*")])
         == Err(IndexError)
  {
    var slash, star := Token(Op, "/"), Token(Op, "*");
    BlockCommentDropped(Init, slash, star, [], star, slash);
    assert [slash, star] + [] + [star, slash] == [slash, star, star, slash];
    RunAppend(Init, [slash, star, star, slash], [star]);
    RunSingle(Init.(lastToken := "/"), star);
    assert [slash, star, star, slash] + [star] == [slash, star, star, slash, star];
  }

  // ---------------------------------------------------------------------
  // Streams with nothing to strip

  /** No comment opener and no comma right before a closer. */
  predicate Clean(ts: seq<Token>) {
    && (forall k :: 0 <= k < |ts| ==> ts[k].text != "//" && ts[k].text != "*")
    && (forall k :: 0 < k < |ts| && IsCloser(ts[k]) ==> ts[k - 1].text != ",")
  }

  lemma RepairKeepsComma(t: Token)
    ensures Repair(t).text == "," ==> t.text == ","
  {
  }

  function RepairAll(ts: seq<Token>): (r: seq<Token>)
    ensures |r| == |ts|
  {
    seq(|ts|, k requires 0 <= k < |ts| => Repair(ts[k]))
  }

  /** On a clean stream the pass is a token-by-token repair: bare words
      quoted, single-quoted strings re-quoted, everything else kept, and the
      output has exactly as many tokens as the input. */
  lemma {:induction false} CleanStreamRepairedTokenwise(ts: seq<Token>)
    requires Clean(ts)
    ensures Run(Init, ts).Ok? && Normal(Run(Init, ts).value)
    ensures Run(Init, ts).value.result == RepairAll(ts)
    ensures Fixup(ts) == Ok(RepairAll(ts))
  {
    if ts != [] {
      var init := ts[..|ts| - 1];
      var t := ts[|ts| - 1];
      assert Clean(init);
      CleanStreamRepairedTokenwise(init);
      var s := Run(Init, init).value;
      assert RepairAll(ts) == RepairAll(init) + [Repair(t)];
      if IsCloser(t) && |s.result| > 0 {
        assert ts[|ts| - 2].text != ",";
        RepairKeepsComma(init[|init| - 1]);
      }
      assert t.text != "//" && t.text != "*";
      assert Step(s, t) == Ok(Emit(s, Repair(t)));
    }
  }
}
