/**
 * Which slash opens a regular expression: stripNonCode of scripts/check-logging.ts decides that by the
 * last significant character before it, and here the decision is stated on texts.
 */
module LexerSlash {
  import opened JsText
  import opened Lexer

  // ---- code, and what may stand between it and a slash -------------------------------------------------------

  /** Characters that are code on their own wherever they stand, inside an interpolation or not. */
  predicate Plainly(c: char, depth: nat) { c !in {'"', '\'', '`', '/'} && (depth > 0 ==> c != '}') }

  predicate CodeText(u: string, depth: nat) { forall k :: 0 <= k < |u| ==> Plainly(u[k], depth) }

  /** The last character that is not white space, or the one before the text. */
  function LastSeen(u: string, previous: char): char {
    if u == "" then previous
    else LastSeen(u[1..], if IsSpace(u[0]) then previous else u[0])
  }

  lemma OneCode(c: char, rest: string, previous: char, depth: nat)
    requires Plainly(c, depth)
    ensures Strip([c] + rest, previous, depth) == [c] + Strip(rest, if IsSpace(c) then previous else c, depth)
  {
    StripStep([c] + rest, previous, depth);
    assert ([c] + rest)[1..] == rest;
  }

  lemma HeadAndRest(u: string, depth: nat) returns (c: char, v: string)
    requires u != "" && CodeText(u, depth)
    ensures u == [c] + v && |v| < |u| && Plainly(c, depth) && CodeText(v, depth)
    ensures forall p: char :: LastSeen(u, p) == LastSeen(v, if IsSpace(c) then p else c)
  {
    c, v := u[0], u[1..];
  }

  lemma Grouped(c: char, v: string, y: string)
    ensures [c] + v + y == [c] + (v + y)
  {
  }

  /** Code stays, and the last of it that can be seen decides about the next slash. */
  lemma {:induction false} CodeStays(u: string, rest: string, previous: char, depth: nat)
    requires CodeText(u, depth)
    ensures Strip(u + rest, previous, depth) == u + Strip(rest, LastSeen(u, previous), depth)
    decreases |u|
  {
    if u == "" {
      assert u + rest == rest;
    } else {
      var c, v := HeadAndRest(u, depth);
      var p, last := if IsSpace(c) then previous else c, LastSeen(u, previous);
      CodeStays(v, rest, p, depth);
      OneCode(c, v + rest, previous, depth);
      Grouped(c, v, rest);
      Grouped(c, v, Strip(rest, last, depth));
    }
  }

  /** White space and comments, as they are written and as they are left. */
  datatype Gap = Blanks(text: string) | LineComment(text: string) | BlockComment(text: string)
  {
    predicate Valid() {
      match this
      case Blanks(text) => forall k :: 0 <= k < |text| ==> IsSpace(text[k])
      case LineComment(text) => '\n' !in text
      case BlockComment(text) => forall k :: 0 <= k < |text| - 1 ==> !(text[k] == '*' && text[k + 1] == '/')
    }
    function Print(): string {
      match this
      case Blanks(text) => text
      case LineComment(text) => "//" + text + "\n"
      case BlockComment(text) => "/*" + text + "*/"
    }
    function Left(): string {
      match this
      case Blanks(text) => text
      case LineComment(text) => Blank("//" + text) + "\n"
      case BlockComment(text) => Blank("/*" + text + "*/")
    }
  }

  lemma {:induction false} LineEndsAt(text: string, rest: string)
    requires '\n' !in text
    ensures LineStop(text + ("\n" + rest)) == |text|
  {
    if text == "" {
      assert text + ("\n" + rest) == "\n" + rest;
    } else {
      assert (text + ("\n" + rest))[1..] == text[1..] + ("\n" + rest);
      LineEndsAt(text[1..], rest);
    }
  }

  lemma {:induction false} CloseEndsAt(text: string, rest: string)
    requires forall k :: 0 <= k < |text| - 1 ==> !(text[k] == '*' && text[k + 1] == '/')
    ensures CloseStop(text + ("*/" + rest)) == |text| + 2
  {
    var s := text + ("*/" + rest);
    if text == "" {
      assert s == "*/" + rest;
    } else {
      assert s[1..] == text[1..] + ("*/" + rest);
      assert |text| == 1 ==> s[1] == '*';
      CloseEndsAt(text[1..], rest);
    }
  }

  lemma SpaceStays(u: string, rest: string, previous: char, depth: nat)
    requires forall k :: 0 <= k < |u| ==> IsSpace(u[k])
    ensures Strip(u + rest, previous, depth) == u + Strip(rest, previous, depth)
  {
    forall k | 0 <= k < |u|
      ensures Plainly(u[k], depth)
    {
      SpaceIsPlain(u[k], depth);
    }
    CodeStays(u, rest, previous, depth);
    SpaceIsUnseen(u, previous);
  }

  lemma SpaceIsPlain(c: char, depth: nat)
    requires IsSpace(c)
    ensures Plainly(c, depth)
  {
    if '!' <= c <= '~' {
      VisibleIsNotSpace(c);
      assert false;
    }
  }

  lemma {:induction false} SpaceIsUnseen(u: string, previous: char)
    requires forall k :: 0 <= k < |u| ==> IsSpace(u[k])
    ensures LastSeen(u, previous) == previous
  {
    if u != "" {
      SpaceIsUnseen(u[1..], previous);
    }
  }

  lemma LineStays(text: string, rest: string, previous: char, depth: nat)
    requires '\n' !in text
    ensures Strip("//" + text + "\n" + rest, previous, depth) == Blank("//" + text) + "\n" + Strip(rest, previous, depth)
  {
    var body, tail := "//" + text, "\n" + rest;
    var s := body + tail;
    assert '\n' !in body;
    LineEndsAt(body, rest);
    Parted(body, tail);
    TokenStep(s, previous, depth, Lex(Blank(body), previous, depth), tail);
    OneCode('\n', rest, previous, depth);
    assert "//" + text + "\n" + rest == s && tail == ['\n'] + rest && IsSpace('\n');
    assert Blank(body) + (['\n'] + Strip(rest, previous, depth)) == Blank(body) + "\n" + Strip(rest, previous, depth);
  }

  lemma Parted(a: string, b: string)
    ensures (a + b)[..|a|] == a && (a + b)[|a|..] == b
  {
  }

  lemma BlockStays(text: string, rest: string, previous: char, depth: nat)
    requires forall k :: 0 <= k < |text| - 1 ==> !(text[k] == '*' && text[k + 1] == '/')
    ensures Strip("/*" + text + "*/" + rest, previous, depth) == Blank("/*" + text + "*/") + Strip(rest, previous, depth)
  {
    var whole := "/*" + text + "*/";
    var s := whole + rest;
    assert s == "/*" + text + "*/" + rest;
    assert s[2..] == text + ("*/" + rest);
    CloseEndsAt(text, rest);
    assert s[..|whole|] == whole && s[|whole|..] == rest;
    StripStep(s, previous, depth);
  }

  /** White space and comments pass the last significant character on. */
  lemma GapStays(g: Gap, rest: string, previous: char, depth: nat)
    requires g.Valid()
    ensures Strip(g.Print() + rest, previous, depth) == g.Left() + Strip(rest, previous, depth)
  {
    match g {
      case Blanks(text) => SpaceStays(text, rest, previous, depth);
      case LineComment(text) => LineStays(text, rest, previous, depth);
      case BlockComment(text) => BlockStays(text, rest, previous, depth);
    }
  }

  predicate ValidGaps(gs: seq<Gap>) { forall k :: 0 <= k < |gs| ==> gs[k].Valid() }

  function PrintGaps(gs: seq<Gap>): string { if gs == [] then "" else gs[0].Print() + PrintGaps(gs[1..]) }

  function LeftGaps(gs: seq<Gap>): string { if gs == [] then "" else gs[0].Left() + LeftGaps(gs[1..]) }

  lemma Regrouped(a: string, b: string, c: string)
    ensures a + b + c == a + (b + c)
  {
  }

  lemma {:induction false} GapsStay(gs: seq<Gap>, rest: string, previous: char, depth: nat)
    requires ValidGaps(gs)
    ensures Strip(PrintGaps(gs) + rest, previous, depth) == LeftGaps(gs) + Strip(rest, previous, depth)
    decreases |gs|
  {
    if gs == [] {
      assert PrintGaps(gs) + rest == rest;
    } else {
      var more, left, y := PrintGaps(gs[1..]), LeftGaps(gs[1..]), Strip(rest, previous, depth);
      Regrouped(gs[0].Print(), more, rest);
      GapStays(gs[0], more + rest, previous, depth);
      GapsStay(gs[1..], rest, previous, depth);
      Regrouped(gs[0].Left(), left, y);
    }
  }

  // ---- the slash -----------------------------------------------------------------------------------------------

  /** A literal between its two marks, taken apart and left blank. */
  lemma Literal(a: string, text: string, b: string, rest: string, y: string, s: string, lit: string)
    requires |a| == 1 && |b| == 1 && s == a + (text + (b + rest)) && lit == a + Blank(text) + b
    ensures s[1..] == text + (b + rest) && s[0] == a[0] && s[1..][..|text|] == text && s[1..][|text|..] == b + rest
    ensures s[1..1 + |text|] == text && s[1 + |text|..] == b + rest && (b + rest)[0] == b[0]
    ensures |lit| <= |s| && s[|lit|..] == rest && lit + y == a + (Blank(text) + (b + y))
  {
    var tail := text + (b + rest);
    assert s[1..] == tail && tail[..|text|] == text && tail[|text|..] == b + rest;
    assert |lit| == |text| + 2;
    assert (b + rest)[1..] == rest;
  }

  lemma TokenStep(s: string, previous: char, depth: nat, lex: Lex, rest: string)
    requires s != "" && Next(s, previous, depth) == lex && |lex.text| <= |s| && s[|lex.text|..] == rest
    ensures Strip(s, previous, depth) == lex.text + Strip(rest, lex.previous, lex.depth)
  {
    StripStep(s, previous, depth);
  }

  lemma TakeOne(b: string, rest: string)
    requires |b| == 1
    ensures Take(b + rest, 1) == b
  {
  }

  /** The body of a regular expression: it opens no comment, and its own slash is the first to close it. */
  ghost predicate RegexBody(body: string) {
    body != "" && body[0] != '/' && body[0] != '*' && forall rest: string :: RegexStop(body + ("/" + rest), false) == |body|
  }

  /** The marks after which an expression is expected. */
  predicate Expects(c: char) {
    c == '(' || c == ',' || c == '=' || c == ':' || c == '[' || c == '!' || c == '&' || c == '|' || c == '?' || c == '{'
    || c == '}' || c == ';' || c == '+' || c == '-' || c == '*' || c == '%' || c == '<' || c == '>' || c == '~' || c == '^'
  }

  lemma RegexToken(s: string, body: string, tail: string, lit: string, previous: char, depth: nat)
    requires s != "" && s[0] == '/' && Expects(previous) && body != "" && body[0] != '/' && body[0] != '*'
    requires 1 + |body| < |s| && s[1..1 + |body|] == body && s[1 + |body|..] == tail && RegexStop(s[1..], false) == |body|
    requires Take(tail, 1) == "/" && lit == "/" + Blank(body) + "/"
    ensures Next(s, previous, depth) == Lex(lit, '/', depth)
  {
    assert s[1] == s[1..1 + |body|][0];
  }

  lemma SlashOpens(body: string, rest: string, previous: char, depth: nat)
    requires RegexBody(body) && Expects(previous)
    ensures Strip("/" + (body + ("/" + rest)), previous, depth) == "/" + (Blank(body) + ("/" + Strip(rest, '/', depth)))
  {
    var s, lit, y := "/" + (body + ("/" + rest)), "/" + Blank(body) + "/", Strip(rest, '/', depth);
    Literal("/", body, "/", rest, y, s, lit);
    TakeOne("/", rest);
    RegexToken(s, body, "/" + rest, lit, previous, depth);
    TokenStep(s, previous, depth, Lex(lit, '/', depth), rest);
  }

  lemma SlashDivides(rest: string, previous: char, depth: nat)
    requires !Expects(previous) && (rest != "" ==> rest[0] != '/' && rest[0] != '*')
    ensures Strip("/" + rest, previous, depth) == "/" + Strip(rest, '/', depth)
  {
    var s := "/" + rest;
    VisibleIsNotSpace('/');
    assert s[1..] == rest;
    StripStep(s, previous, depth);
  }

  /**
   * Behind code, whatever white space and comments stand between: a slash opens a regular expression if the
   * last character seen is one of the twenty marks, and is a division otherwise. An expression is blanked
   * inside, and what follows either way is read on as code behind a slash.
   */
  lemma SlashBehindCode(u: string, gs: seq<Gap>, body: string, rest: string, previous: char, depth: nat)
    requires CodeText(u, depth) && ValidGaps(gs) && RegexBody(body)
    ensures var m, more := LastSeen(u, previous), body + ("/" + rest);
            Strip(u + (PrintGaps(gs) + ("/" + more)), previous, depth) ==
              u + (LeftGaps(gs) + ("/" + if Expects(m) then Blank(body) + ("/" + Strip(rest, '/', depth)) else Strip(more, '/', depth)))
  {
    var m, more := LastSeen(u, previous), body + ("/" + rest);
    CodeStays(u, PrintGaps(gs) + ("/" + more), previous, depth);
    GapsStay(gs, "/" + more, m, depth);
    if Expects(m) {
      SlashOpens(body, rest, m, depth);
    } else {
      assert more[0] == body[0];
      SlashDivides(more, m, depth);
    }
  }

  /** In a source: one of the marks, an expression, and the code behind it, which stays. */
  lemma RegexIsBlanked(before: string, mark: char, gs: seq<Gap>, body: string, code: string)
    requires CodeText(before, 0) && ValidGaps(gs) && RegexBody(body) && CodeText(code, 0)
    requires mark in {'(', ',', '=', ':', '[', '!', '&', '|', '?', '{', '}', ';', '+', '-', '*', '%', '<', '>', '~', '^'}
    ensures StripNonCode(before + [mark] + (PrintGaps(gs) + ("/" + (body + ("/" + code)))))
            == before + [mark] + (LeftGaps(gs) + ("/" + (Blank(body) + ("/" + code))))
  {
    var u := before + [mark];
    VisibleIsNotSpace(mark);
    SeenLast(before, mark, ' ');
    SlashBehindCode(u, gs, body, code, ' ', 0);
    CodeStays(code, "", '/', 0);
    assert code + "" == code;
  }

  predicate EndsValue(c: char) {
    'a' <= c <= 'z' || 'A' <= c <= 'Z' || '0' <= c <= '9' || c in {'_', '$', ')', ']', '.'}
  }

  lemma Divides(c: char)
    requires EndsValue(c)
    ensures !Expects(c) && !IsSpace(c) && Plainly(c, 0)
  {
    VisibleIsNotSpace(c);
  }

  /** A name, a number or a closing bracket before the slash: it divides, and what follows stays code. */
  lemma DivisionIsCode(before: string, last: char, gs: seq<Gap>, code: string)
    requires CodeText(before, 0) && ValidGaps(gs) && CodeText(code, 0) && (code != "" ==> code[0] != '*')
    requires EndsValue(last)
    ensures StripNonCode(before + [last] + (PrintGaps(gs) + ("/" + code))) == before + [last] + (LeftGaps(gs) + ("/" + code))
  {
    var u := before + [last];
    Divides(last);
    SeenLast(before, last, ' ');
    CodeStays(u, PrintGaps(gs) + ("/" + code), ' ', 0);
    GapsStay(gs, "/" + code, last, 0);
    SlashDivides(code, last, 0);
    CodeStays(code, "", '/', 0);
    assert code + "" == code;
  }

  lemma {:induction false} SeenLast(before: string, last: char, previous: char)
    requires !IsSpace(last)
    ensures LastSeen(before + [last], previous) == last
  {
    if before == "" {
      assert before + [last] == [last];
    } else {
      assert (before + [last])[1..] == before[1..] + [last];
      SeenLast(before[1..], last, if IsSpace(before[0]) then previous else before[0]);
    }
  }

  /** At the start of a source nothing has been seen: a slash there divides. */
  lemma FirstSlashDivides(gs: seq<Gap>, code: string)
    requires ValidGaps(gs) && CodeText(code, 0) && (code != "" ==> code[0] != '*')
    ensures StripNonCode(PrintGaps(gs) + ("/" + code)) == LeftGaps(gs) + ("/" + code)
  {
    GapsStay(gs, "/" + code, ' ', 0);
    SlashDivides(code, ' ', 0);
    CodeStays(code, "", '/', 0);
    assert code + "" == code;
  }

  // ---- behind a literal ------------------------------------------------------------------------------------------

  ghost predicate QuotedBody(q: char, text: string) {
    (q == '"' || q == '\'') && forall rest: string :: StringStop(text + ([q] + rest), q) == |text|
  }

  ghost predicate TemplateBody(text: string) { forall rest: string :: TemplateStop(text + ("`" + rest)) == |text| }

  lemma StringToken(s: string, q: char, text: string, tail: string, lit: string, previous: char, depth: nat)
    requires s != "" && s[0] == q && (q == '"' || q == '\'')
    requires 1 + |text| < |s| && s[1..1 + |text|] == text && s[1 + |text|..] == tail && StringStop(s[1..], q) == |text|
    requires Take(tail, 1) == [q] && lit == [q] + Blank(text) + [q]
    ensures Next(s, previous, depth) == Lex(lit, q, depth)
  {
  }

  lemma StringStays(q: char, text: string, rest: string, previous: char, depth: nat)
    requires QuotedBody(q, text)
    ensures Strip([q] + (text + ([q] + rest)), previous, depth) == [q] + (Blank(text) + ([q] + Strip(rest, q, depth)))
  {
    var s, lit, y := [q] + (text + ([q] + rest)), [q] + Blank(text) + [q], Strip(rest, q, depth);
    Literal([q], text, [q], rest, y, s, lit);
    TakeOne([q], rest);
    StringToken(s, q, text, [q] + rest, lit, previous, depth);
    TokenStep(s, previous, depth, Lex(lit, q, depth), rest);
  }

  lemma BodyCloses(head: string, t: string, text: string, rest: string, lit: string, previous: char, depth: nat)
    requires depth > 0 && TemplateStop(t) == |text| < |t| && t[..|text|] == text && t[|text|] == '`' && lit == head + Blank(text) + "`"
    ensures AfterBody(head, t, previous, depth) == Lex(lit, previous, depth - 1)
  {
  }

  lemma TemplateStays(text: string, rest: string, previous: char, depth: nat)
    requires TemplateBody(text)
    ensures Strip("`" + (text + ("`" + rest)), previous, depth) == "`" + (Blank(text) + ("`" + Strip(rest, '`', depth)))
  {
    var s, lit, y := "`" + (text + ("`" + rest)), "`" + Blank(text) + "`", Strip(rest, '`', depth);
    Literal("`", text, "`", rest, y, s, lit);
    BodyCloses("`", s[1..], text, rest, lit, '`', depth + 1);
    TokenStep(s, previous, depth, Lex(lit, '`', depth), rest);
  }

  /** The `}` that leaves an interpolation resumes the body, and what was last seen inside is still last seen. */
  lemma ResumedStays(text: string, rest: string, previous: char, depth: nat)
    requires TemplateBody(text) && depth > 0
    ensures Strip("}" + (text + ("`" + rest)), previous, depth) == "}" + (Blank(text) + ("`" + Strip(rest, previous, depth - 1)))
  {
    var s, lit, y := "}" + (text + ("`" + rest)), "}" + Blank(text) + "`", Strip(rest, previous, depth - 1);
    Literal("}", text, "`", rest, y, s, lit);
    BodyCloses("}", s[1..], text, rest, lit, previous, depth);
    TokenStep(s, previous, depth, Lex(lit, previous, depth - 1), rest);
  }

  /** A literal of any kind, then white space and comments, then a slash: a division. */
  lemma SlashBehindLiteral(q: char, text: string, gs: seq<Gap>, code: string, previous: char, depth: nat)
    requires QuotedBody(q, text) || (q == '`' && TemplateBody(text)) || (q == '/' && RegexBody(text) && Expects(previous))
    requires ValidGaps(gs) && CodeText(code, depth) && (code != "" ==> code[0] != '*')
    ensures Strip([q] + (text + ([q] + (PrintGaps(gs) + ("/" + code)))), previous, depth)
            == [q] + (Blank(text) + ([q] + (LeftGaps(gs) + ("/" + code))))
  {
    var rest := PrintGaps(gs) + ("/" + code);
    if q == '`' {
      TemplateStays(text, rest, previous, depth);
    } else if q == '/' {
      assert "/" + (text + ("/" + rest)) == [q] + (text + ([q] + rest));
      SlashOpens(text, rest, previous, depth);
    } else {
      StringStays(q, text, rest, previous, depth);
    }
    GapsStay(gs, "/" + code, q, depth);
    SlashDivides(code, q, depth);
    CodeStays(code, "", '/', depth);
    assert code + "" == code;
  }

  // ---- bodies that are such ----------------------------------------------------------------------------------------

  lemma {:induction false} NoMarkStops(body: string, rest: string)
    requires forall k :: 0 <= k < |body| ==> body[k] !in {'/', '\\', '[', '\n'}
    ensures RegexStop(body + ("/" + rest), false) == |body|
  {
    var s := body + ("/" + rest);
    if body == "" {
      assert s == "/" + rest;
    } else {
      assert s[1..] == body[1..] + ("/" + rest);
      NoMarkStops(body[1..], rest);
    }
  }

  /** Any text without a slash, a backslash, an opening bracket or a line feed is the body of an expression. */
  lemma SimpleBody(body: string)
    requires body != "" && body[0] != '*' && forall k :: 0 <= k < |body| ==> body[k] !in {'/', '\\', '[', '\n'}
    ensures RegexBody(body)
  {
    forall rest: string
      ensures RegexStop(body + ("/" + rest), false) == |body|
    {
      NoMarkStops(body, rest);
    }
  }

  // ---- a message behind a quote in an expression ---------------------------------------------------------------

  lemma QuoteIsBlanked(body: string, before: string, code: string)
    requires body == "\"" && CodeText(before, 0) && CodeText(code, 0)
    ensures StripNonCode(before + "(" + ("/" + (body + ("/" + code)))) == before + "(" + ("/" + (" " + ("/" + code)))
  {
    SimpleBody(body);
    RegexIsBlanked(before, '(', [], body, code);
    assert PrintGaps([]) + ("/" + (body + ("/" + code))) == "/" + (body + ("/" + code));
    assert LeftGaps([]) + ("/" + (Blank(body) + ("/" + code))) == "/" + (" " + ("/" + code));
  }

  /** The quote inside the expression opens no string, and the logged message behind it is still there to be found. */
  lemma MessageIsSeen(before: string, code: string, source: string, stripped: string)
    requires before == "console.error(f" && code == "),error.message)"
    requires source == "console.error(f(/\"/),error.message)" && stripped == "console.error(f(/ /),error.message)"
    ensures StripNonCode(source) == stripped
  {
    var quote := "\"";
    MessageIsCode(before, code);
    QuoteIsBlanked(quote, before, code);
    Spelled(before, code, quote, source);
    Spelled(before, code, " ", stripped);
  }

  lemma MessageIsCode(before: string, code: string)
    requires before == "console.error(f" && code == "),error.message)"
    ensures CodeText(before, 0) && CodeText(code, 0)
  {
  }

  lemma Spelled(before: string, code: string, body: string, source: string)
    requires before == "console.error(f" && code == "),error.message)" && |body| == 1
    requires source == "console.error(f(/" + body + "/),error.message)"
    ensures before + "(" + ("/" + (body + ("/" + code))) == source
  {
  }
}
