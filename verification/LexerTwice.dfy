/**
 * Stripping twice: when a source that was stripped once is left alone by the stripper, and what such
 * a text is. A regex literal that a line feed cuts is the only thing that can be read differently.
 */
module LexerTwice {
  import opened JsText
  import opened Lexer

  // ---- the condition ---------------------------------------------------------------------------------------

  /** A backslash right before a line feed. */
  predicate EscapedFeed(body: string) {
    exists k :: 0 <= k < |body| - 1 && body[k] == '\\' && body[k + 1] == '\n'
  }

  /** The slash at the front would open a comment, were it code and what follows it stripped. */
  predicate Reopens(s: string) {
    |s| > 1 && s[0] == '/' && (s[1] == '*' || (s[1] == '/' && !Comment(s[1..])))
  }

  /** No regex literal that holds an escaped line feed is closed by a slash that would open a comment. */
  predicate Steady(s: string, previous: char, depth: nat)
    decreases |s|
  {
    s == "" ||
    (var lex := Next(s, previous, depth);
     NextLength(s, previous, depth);
     && (RegexHere(s, previous) ==>
           var n := RegexStop(s[1..], false); EscapedFeed(s[1..1 + n]) ==> !Reopens(s[1 + n..]))
     && Steady(s[|lex.text|..], lex.previous, lex.depth))
  }

  // ---- where a body stops again, once it is blank ----------------------------------------------------------

  /** A line feed inside a regex literal is an escaped one. */
  lemma RegexFeeds(b: string, n: nat)
    requires RegexEndsAt(b, false, n)
    ensures '\n' in b[..n] ==> EscapedFeed(b[..n])
  {
    if '\n' in b[..n] {
      var k :| 0 <= k < n && b[..n][k] == '\n';
      assert !RegexMark(b, false, k);
      assert b[..n][k - 1] == '\\' && b[..n][k - 1 + 1] == '\n';
    }
  }

  lemma {:induction false} StringStopsAgain(u: string, tail: string, quote: char)
    requires Spaces(u) && quote != ' ' && (tail == "" || tail[0] == quote || tail[0] == '\n')
    ensures StringStop(u + tail, quote) == |u|
  {
    if u == "" {
      assert u + tail == tail;
    } else {
      StringStopsAgain(u[1..], tail, quote);
      assert (u + tail)[1..] == u[1..] + tail;
    }
  }

  lemma {:induction false} TemplateStopsAgain(u: string, tail: string)
    requires Void(u) && (tail == "" || tail[0] == '`' || At(tail, '$', '{'))
    ensures TemplateStop(u + tail) == |u|
  {
    if u == "" {
      assert u + tail == tail;
    } else {
      TemplateStopsAgain(u[1..], tail);
      assert (u + tail)[1..] == u[1..] + tail;
    }
  }

  lemma {:induction false} RegexStopsAgain(u: string, tail: string)
    requires Spaces(u) && (tail == "" || tail[0] == '/' || tail[0] == '\n')
    ensures RegexStop(u + tail, false) == |u|
  {
    if u == "" {
      assert u + tail == tail;
    } else {
      RegexStopsAgain(u[1..], tail);
      assert (u + tail)[1..] == u[1..] + tail;
    }
  }

  // ---- one token again -------------------------------------------------------------------------------------

  /** What follows a token, stripped: as long as before, and beginning as before unless blanked. */
  predicate After(rest: string, x: string) {
    |x| == |rest| && (x != "" ==> x[0] == rest[0] || x[0] == ' ')
  }

  lemma Parts(c: char, body: string, close: string, x: string)
    ensures var s := [c] + body + close + x;
            s[1..] == body + (close + x) && s[1..1 + |body|] == body && s[1 + |body|..] == close + x
  {
  }

  lemma CloseAgain(s: string, n: nat, x: string)
    requires n < |s| && (n + 1 == |s| ==> x == "")
    ensures var close := Take(s[1 + n..], 1);
            && Take(close + x, 1) == close
            && (n + 1 == |s| ==> close + x == "") && (n + 1 < |s| ==> close == [s[1 + n]])
  {
  }

  lemma QuotedBlank(c: char, body: string, close: string, x: string, previous: char, depth: nat)
    requires Blank(body) == body && Take(close + x, 1) == close
    ensures Quoted([c] + body + close + x, |body|, previous, depth) == Lex([c] + body + close, previous, depth)
  {
    Parts(c, body, close, x);
  }

  lemma NothingBehind(s: string, n: nat, previous: char, depth: nat, x: string)
    requires s != "" && n < |s|
    requires var t := Quoted(s, n, previous, depth).text; |t| <= |s| && After(s[|t|..], x)
    ensures n + 1 == |s| ==> x == ""
  {
  }

  /** A literal between two kept characters, read again after its body is blank. */
  lemma QuotedAgain(s: string, n: nat, previous: char, depth: nat, x: string)
    requires s != "" && n < |s|
    requires var t := Quoted(s, n, previous, depth).text; After(s[|t|..], x)
    ensures var t := Quoted(s, n, previous, depth).text;
            && t + x != "" && (t + x)[0] == s[0] && n < |t + x|
            && (t + x)[1..] == Blank(s[1..1 + n]) + (Take(s[1 + n..], 1) + x)
            && Quoted(t + x, n, previous, depth) == Quoted(s, n, previous, depth)
            && (n + 1 == |s| ==> Take(s[1 + n..], 1) + x == "")
            && (n + 1 < |s| ==> (Take(s[1 + n..], 1) + x)[0] == s[1 + n])
  {
    NothingBehind(s, n, previous, depth, x);
    CloseAgain(s, n, x);
    QuotedAlike(s, n, previous, depth, x, Blank(s[1..1 + n]), Take(s[1 + n..], 1));
  }

  lemma QuotedAlike(s: string, n: nat, previous: char, depth: nat, x: string, body: string, close: string)
    requires s != "" && n < |s| && body == Blank(s[1..1 + n]) && close == Take(s[1 + n..], 1) && Take(close + x, 1) == close
    ensures var t := Quoted(s, n, previous, depth).text;
            && t + x == [s[0]] + body + close + x && |body| == n && (t + x)[1..] == body + (close + x)
            && Quoted(t + x, n, previous, depth) == Quoted(s, n, previous, depth)
  {
    BlankIsVoid(s[1..1 + n]);
    QuotedShape(s, n, previous, depth);
    Parts(s[0], body, close, x);
    QuotedBlank(s[0], body, close, x, previous, depth);
  }

  /** The mark behind a body is found again in front of whatever follows it. */
  lemma MarkAgain(b: string, n: nat, x: string)
    requires n <= |b| && (n < |b| && b[n] != '`' ==> At(b[n..], '$', '{')) && (n == |b| ==> x == "")
    ensures var mark := BodyMark(b, n);
            && (mark + x == "" || (mark + x)[0] == '`' || At(mark + x, '$', '{'))
            && BodyMark(mark + x, 0) == mark && ((mark + x == "") <==> n == |b|)
            && (n < |b| ==> (mark + x)[0] == b[n])
  {
  }

  lemma BodyAgain(c: char, u: string, mark: string, x: string, previous: char, depth: nat)
    requires depth > 0 && Blank(u) == u && Void(u)
    requires (mark + x == "" || (mark + x)[0] == '`' || At(mark + x, '$', '{')) && BodyMark(mark + x, 0) == mark
    ensures AfterBody([c], u + (mark + x), previous, depth)
            == Lex([c] + u + mark, previous, if mark + x != "" && (mark + x)[0] == '`' then depth - 1 else depth)
  {
    var b := u + (mark + x);
    TemplateStopsAgain(u, mark + x);
    assert b[..|u|] == u && b[|u|..] == mark + x && (mark + x)[0..] == mark + x;
  }

  lemma HeadApart(c: char, u: string, mark: string, x: string)
    ensures ([c] + u + mark + x)[1..] == u + (mark + x)
  {
  }

  /** A template body between kept marks, read again after it is blank. */
  lemma AfterBodyAgain(c: char, b: string, previous: char, depth: nat, x: string)
    requires depth > 0
    requires var t := AfterBody([c], b, previous, depth).text; After(([c] + b)[|t|..], x)
    ensures var t := AfterBody([c], b, previous, depth).text;
            && t + x != "" && (t + x)[0] == c
            && AfterBody([c], (t + x)[1..], previous, depth) == AfterBody([c], b, previous, depth)
  {
    var n := TemplateStop(b);
    BodyText([c], b, previous, depth);
    BlankIsVoid(b[..n]);
    MarkAgain(b, n, x);
    BodyAgain(c, Blank(b[..n]), BodyMark(b, n), x, previous, depth);
    HeadApart(c, Blank(b[..n]), BodyMark(b, n), x);
  }

  lemma BlankNext(s: string, previous: char, depth: nat)
    requires s != "" && (s[0] == ' ' || s[0] == '\n')
    ensures Next(s, previous, depth) == Lex([s[0]], previous, depth)
  {
  }

  lemma StringAgain(s: string, x: string, previous: char, depth: nat)
    requires s != "" && !Comment(s) && (s[0] == '"' || s[0] == '\'')
    requires var t := Next(s, previous, depth).text; After(s[|t|..], x)
    ensures Next(Next(s, previous, depth).text + x, previous, depth) == Next(s, previous, depth)
  {
    var n := StringStop(s[1..], s[0]);
    var t := Next(s, previous, depth).text;
    QuotedAgain(s, n, s[0], depth, x);
    StringStops(s[1..], s[0]);
    assert s[1..][..n] == s[1..1 + n] && (n + 1 < |s| ==> s[1..][n] == s[1 + n]);
    BlankIsVoid(s[1..1 + n]);
    StringStopsAgain(Blank(s[1..1 + n]), Take(s[1 + n..], 1) + x, s[0]);
  }

  lemma RegexAgain(s: string, x: string, previous: char, depth: nat)
    requires RegexHere(s, previous) && !EscapedFeed(s[1..1 + RegexStop(s[1..], false)])
    requires var t := Next(s, previous, depth).text; After(s[|t|..], x)
    ensures var t := Next(s, previous, depth).text; !Comment(t + x) && t + x != "" && Next(t + x, previous, depth) == Next(s, previous, depth)
  {
    var n := RegexStop(s[1..], false);
    var t := Next(s, previous, depth).text;
    QuotedAgain(s, n, '/', depth, x);
    RegexStops(s[1..], false);
    RegexFeeds(s[1..], n);
    assert s[1..][..n] == s[1..1 + n] && (n + 1 < |s| ==> s[1..][n] == s[1 + n]);
    BlankIsVoid(s[1..1 + n]);
    RegexStopsAgain(Blank(s[1..1 + n]), Take(s[1 + n..], 1) + x);
    assert !Comment(t + x) by {
      if n > 0 {
        assert (t + x)[1] == Blank(s[1..1 + n])[0];
      } else if |s| > 1 {
        assert (t + x)[1] == s[1];
      }
    }
  }

  /** Any token but a comment is read again just as it was. */
  lemma NextAgain(s: string, x: string, previous: char, depth: nat)
    requires s != "" && !Comment(s)
    requires RegexHere(s, previous) ==> !EscapedFeed(s[1..1 + RegexStop(s[1..], false)])
    requires var t := Next(s, previous, depth).text; |t| <= |s| && After(s[|t|..], x)
    ensures var t := Next(s, previous, depth).text; !Comment(t + x) && t + x != "" && Next(t + x, previous, depth) == Next(s, previous, depth)
  {
    if s[0] == '"' || s[0] == '\'' {
      StringAgain(s, x, previous, depth);
    } else if s[0] == '`' {
      assert s == ['`'] + s[1..];
      AfterBodyAgain('`', s[1..], '`', depth + 1, x);
    } else if s[0] == '}' && depth > 0 {
      assert s == ['}'] + s[1..];
      AfterBodyAgain('}', s[1..], previous, depth, x);
    } else if RegexHere(s, previous) {
      RegexAgain(s, x, previous, depth);
    } else {
      assert !Comment([s[0]] + x);
    }
  }

  // ---- blanks ----------------------------------------------------------------------------------------------

  lemma OneBlank(c: char, x: string, previous: char, depth: nat)
    requires c == ' ' || c == '\n'
    ensures Strip([c] + x, previous, depth) == [c] + Strip(x, previous, depth)
  {
    BlankNext([c] + x, previous, depth);
    StripStep([c] + x, previous, depth);
    assert ([c] + x)[1..] == x;
  }

  lemma LastApart(u: string, x: string) returns (init: string, c: char)
    requires u != "" && Void(u)
    ensures |init| < |u| && u == init + [c] && init + ([c] + x) == u + x && Void(init) && (c == ' ' || c == '\n')
  {
    init, c := u[..|u| - 1], u[|u| - 1];
  }

  lemma Reassociated(u: string, c: char, y: string)
    ensures u + ([c] + y) == u + [c] + y
  {
  }

  /** A run of blanks is read through without effect. */
  lemma {:induction false} BlanksRead(u: string, x: string, s: string, previous: char, depth: nat)
    requires s == u + x && Void(u)
    ensures Strip(s, previous, depth) == u + Strip(x, previous, depth)
    decreases |u|
  {
    if u == "" {
      assert s == x;
    } else {
      var init, c := LastApart(u, x);
      BlanksRead(init, [c] + x, s, previous, depth);
      OneBlank(c, x, previous, depth);
      Reassociated(init, c, Strip(x, previous, depth));
    }
  }

  lemma PrefixCancels(a: string, y: string, z: string)
    ensures a + y == a + z <==> y == z
  {
    assert (a + y)[|a|..] == y && (a + z)[|a|..] == z;
  }

  // ---- a regex literal that a line feed cuts ---------------------------------------------------------------

  /** A token keeps its first character, unless it is a comment. */
  lemma FirstOfToken(s: string, previous: char, depth: nat)
    requires s != ""
    ensures var t := Next(s, previous, depth).text; t != "" && t[0] == if Comment(s) then ' ' else s[0]
  {
    NextLength(s, previous, depth);
    if Comment(s) {
      var t := Next(s, previous, depth).text;
      BlankIsVoid(s[..|t|]);
      assert t[0] == BlankChar(s[0]);
    }
  }

  /** So the first character of a text is still there once it is stripped, unless a comment opens it. */
  lemma FirstKept(rest: string, previous: char, depth: nat)
    ensures var x := Strip(rest, previous, depth);
            |x| == |rest| && (rest != "" ==> x[0] == if Comment(rest) then ' ' else rest[0])
  {
    StripOnlyBlanks(rest, previous, depth);
    if rest != "" {
      StripStep(rest, previous, depth);
      FirstOfToken(rest, previous, depth);
    }
  }

  /** The slash that closed the literal, met as code. */
  lemma CloseAlone(rest: string, depth: nat)
    ensures var x := Strip(rest, '/', depth);
            Strip(['/'] + x, '/', depth) == ['/'] + x <==> !Reopens(['/'] + rest) && Strip(x, '/', depth) == x
  {
    var x := Strip(rest, '/', depth);
    FirstKept(rest, '/', depth);
    var s := ['/'] + x;
    assert s[1..] == x && (['/'] + rest)[1..] == rest;
    StripStep(s, '/', depth);
    if Comment(s) {
      BlankIsVoid(s[..|Next(s, '/', depth).text|]);
      assert Strip(s, '/', depth)[0] == ' ';
    } else {
      VisibleIsNotSpace('/');
      assert Next(s, '/', depth) == Lex(['/'], '/', depth);
      PrefixCancels(['/'], Strip(x, '/', depth), x);
    }
  }

  /** What a regex literal stops at, and what follows it. */
  lemma CloseRead(tail: string, depth: nat)
    requires tail == "" || tail[0] == '/' || tail[0] == '\n'
    ensures var close, x := Take(tail, 1), Strip(Drop(tail, 1), '/', depth);
            Strip(close + x, '/', depth) == close + x <==> !Reopens(tail) && Strip(x, '/', depth) == x
  {
    var rest := Drop(tail, 1);
    var x := Strip(rest, '/', depth);
    if tail == "" {
      assert Take(tail, 1) + x == x;
    } else {
      assert tail == [tail[0]] + rest && Take(tail, 1) == [tail[0]];
      if tail[0] == '/' {
        CloseAlone(rest, depth);
      } else {
        OneBlank('\n', x, '/', depth);
        PrefixCancels(['\n'], Strip(x, '/', depth), x);
      }
    }
  }

  /** The first line feed of a blank body, which is not its first character. */
  lemma FirstFeed(body: string) returns (u: string, v: string)
    requires '\n' in body && body[0] != '\n'
    ensures Blank(body) == u + (['\n'] + v) && u != "" && Spaces(u) && Void(v)
  {
    var f := LineStop(body);
    LineStops(body);
    u, v := Blank(body[..f]), Blank(body[f + 1..]);
    BlankIsVoid(body[..f]);
    BlankIsVoid(body[f + 1..]);
  }

  lemma HeadAndBody(head: char, u: string, tail: string, s: string)
    requires s == [head] + (u + tail) && u != ""
    ensures s[1..] == u + tail && s[1] == u[0] && s[1..1 + |u|] == u && s[1 + |u|..] == tail
  {
    var t := u + tail;
    assert s[1..] == t && t[..|u|] == u && t[|u|..] == tail;
    assert s[1..1 + |u|] == t[..|u|] && s[1 + |u|..] == t[|u|..];
  }

  /** Read again, the literal ends at its first line feed, and what is left of it is code. */
  lemma CutRead(u: string, v: string, y: string, s: string, previous: char, depth: nat)
    requires u != "" && Spaces(u) && Void(v) && StartsRegex(previous)
    requires s == ['/'] + (u + (['\n'] + (v + y)))
    ensures Strip(s, previous, depth) == s <==> Strip(y, '/', depth) == y
  {
    var tail := ['\n'] + (v + y);
    var t := ['/'] + u + ['\n'];
    HeadAndBody('/', u, tail, s);
    RegexStopsAgain(u, tail);
    assert Blank(u) == u;
    assert Next(s, previous, depth) == Lex(t, '/', depth);
    assert s[|t|..] == v + y && s == t + (v + y);
    StripStep(s, previous, depth);
    BlanksRead(v, y, v + y, '/', depth);
    PrefixCancels(t, v + Strip(y, '/', depth), v + y);
    PrefixCancels(v, Strip(y, '/', depth), y);
  }

  /** A regex literal that holds an escaped line feed, once it is stripped with what follows it. */
  lemma CutLiteral(s: string, previous: char, depth: nat)
    requires RegexHere(s, previous) && EscapedFeed(s[1..1 + RegexStop(s[1..], false)])
    ensures var n := RegexStop(s[1..], false);
            var lex := Next(s, previous, depth);
            && 0 < |lex.text| <= |s| && lex.previous == '/' && lex.depth == depth
            && var x := Strip(s[|lex.text|..], '/', depth);
            Strip(lex.text + x, previous, depth) == lex.text + x <==> !Reopens(s[1 + n..]) && Strip(x, '/', depth) == x
  {
    var n, text := RegexStop(s[1..], false), Next(s, previous, depth).text;
    CutParts(s, n, s[1..1 + n], s[1 + n..], text, previous, depth);
    CutJoined(s[1..1 + n], s[1 + n..], text, previous, depth);
  }

  lemma CutParts(s: string, n: nat, body: string, tail: string, text: string, previous: char, depth: nat)
    requires RegexHere(s, previous) && n == RegexStop(s[1..], false) && EscapedFeed(s[1..1 + n])
    requires body == s[1..1 + n] && tail == s[1 + n..] && text == Next(s, previous, depth).text
    ensures text == ['/'] + Blank(body) + Take(tail, 1) && 0 < |text| <= |s| && s[|text|..] == Drop(tail, 1)
    ensures '\n' in body && body[0] != '\n' && (tail == "" || tail[0] == '/' || tail[0] == '\n')
    ensures Next(s, previous, depth).previous == '/' && Next(s, previous, depth).depth == depth
  {
    var b := s[1..];
    RegexStops(b, false);
    CutShape(s, b, n);
    FeedInside(b, n);
    CutText(s, n, Blank(body), tail, previous, depth);
  }

  /** A blanked body between its marks, with what follows it stripped. */
  lemma CutJoined(body: string, tail: string, text: string, previous: char, depth: nat)
    requires '\n' in body && body[0] != '\n' && StartsRegex(previous) && (tail == "" || tail[0] == '/' || tail[0] == '\n')
    requires text == ['/'] + Blank(body) + Take(tail, 1)
    ensures var x := Strip(Drop(tail, 1), '/', depth);
            Strip(text + x, previous, depth) == text + x <==> !Reopens(tail) && Strip(x, '/', depth) == x
  {
    var x := Strip(Drop(tail, 1), '/', depth);
    var u, v := FirstFeed(body);
    CutGroups(u, v, Take(tail, 1), x);
    CutRead(u, v, Take(tail, 1) + x, text + x, previous, depth);
    CloseRead(tail, depth);
  }

  lemma CutShape(s: string, b: string, n: nat)
    requires s != "" && b == s[1..] && n <= |b|
    ensures s[1..1 + n] == b[..n] && s[1 + n..] == b[n..]
  {
  }

  lemma CutText(s: string, n: nat, body: string, tail: string, previous: char, depth: nat)
    requires RegexHere(s, previous) && n == RegexStop(s[1..], false) && body == Blank(s[1..1 + n]) && tail == s[1 + n..]
    ensures var t := Next(s, previous, depth).text;
            t == ['/'] + body + Take(tail, 1) && |t| <= |s| && s[|t|..] == Drop(tail, 1)
  {
    NextLength(s, previous, depth);
  }

  lemma CutGroups(u: string, v: string, close: string, x: string)
    ensures ['/'] + (u + (['\n'] + v)) + close + x == ['/'] + (u + (['\n'] + (v + (close + x))))
  {
  }

  lemma FeedInside(b: string, n: nat)
    requires RegexEndsAt(b, false, n) && EscapedFeed(b[..n])
    ensures '\n' in b[..n] && b[0] != '\n' && (n < |b| ==> b[n..][0] == '/' || b[n..][0] == '\n')
  {
    var body := b[..n];
    var k :| 0 <= k < |body| - 1 && body[k] == '\\' && body[k + 1] == '\n';
    assert body[k + 1] in body;
    assert !RegexMark(b, false, 0) && !Escaped(b, 0);
  }

  // ---- exactly when ----------------------------------------------------------------------------------------

  lemma OtherToken(s: string, x: string, previous: char, depth: nat)
    requires s != "" && !Comment(s)
    requires RegexHere(s, previous) ==> !EscapedFeed(s[1..1 + RegexStop(s[1..], false)])
    requires var lex := Next(s, previous, depth); |lex.text| <= |s| && After(s[|lex.text|..], x)
    ensures var lex := Next(s, previous, depth);
            Strip(lex.text + x, previous, depth) == lex.text + x <==> Strip(x, lex.previous, lex.depth) == x
  {
    var lex := Next(s, previous, depth);
    NextAgain(s, x, previous, depth);
    StripStep(lex.text + x, previous, depth);
    assert (lex.text + x)[|lex.text|..] == x;
    PrefixCancels(lex.text, Strip(x, lex.previous, lex.depth), x);
  }

  lemma CommentToken(s: string, x: string, previous: char, depth: nat)
    requires s != "" && Comment(s)
    ensures var lex := Next(s, previous, depth);
            Strip(lex.text + x, previous, depth) == lex.text + x <==> Strip(x, lex.previous, lex.depth) == x
  {
    var lex := Next(s, previous, depth);
    BlankIsVoid(s[..|lex.text|]);
    BlanksRead(lex.text, x, lex.text + x, previous, depth);
    PrefixCancels(lex.text, Strip(x, previous, depth), x);
  }

  /** A stripped text is left alone if and only if its source is steady. */
  lemma {:induction false} TwiceIff(s: string, previous: char, depth: nat)
    ensures Strip(Strip(s, previous, depth), previous, depth) == Strip(s, previous, depth) <==> Steady(s, previous, depth)
    decreases |s|
  {
    if s != "" {
      var lex := Next(s, previous, depth);
      StripStep(s, previous, depth);
      var rest := s[|lex.text|..];
      var x := Strip(rest, lex.previous, lex.depth);
      TwiceIff(rest, lex.previous, lex.depth);
      FirstKept(rest, lex.previous, lex.depth);
      if Comment(s) {
        CommentToken(s, x, previous, depth);
      } else if RegexHere(s, previous) && EscapedFeed(s[1..1 + RegexStop(s[1..], false)]) {
        CutLiteral(s, previous, depth);
      } else {
        OtherToken(s, x, previous, depth);
      }
    }
  }

  /** Stripping is idempotent on a source if and only if the source is steady. */
  lemma StripTwiceIff(source: string)
    ensures StripNonCode(StripNonCode(source)) == StripNonCode(source) <==> Steady(source, ' ', 0)
  {
    TwiceIff(source, ' ', 0);
  }

  // ---- what is left alone ----------------------------------------------------------------------------------

  /** A text in which no comment opens and every literal is already blank inside. */
  predicate Bare(t: string, previous: char, depth: nat)
    decreases |t|
  {
    t == "" ||
    (var lex := Next(t, previous, depth);
     NextLength(t, previous, depth);
     !Comment(t) && t[..|lex.text|] == lex.text && Bare(t[|lex.text|..], lex.previous, lex.depth))
  }

  /** A text is left alone by the stripper if and only if it is bare. */
  lemma {:induction false} BareIffFixed(t: string, previous: char, depth: nat)
    ensures Bare(t, previous, depth) <==> Strip(t, previous, depth) == t
    decreases |t|
  {
    if t != "" {
      var lex := Next(t, previous, depth);
      StripStep(t, previous, depth);
      var rest := t[|lex.text|..];
      BareIffFixed(rest, lex.previous, lex.depth);
      assert t == t[..|lex.text|] + rest;
      StripOnlyBlanks(rest, lex.previous, lex.depth);
      PrefixesAgree(lex.text, t[..|lex.text|], Strip(rest, lex.previous, lex.depth), rest);
      if Comment(t) {
        FirstKept(t, previous, depth);
      }
    }
  }

  lemma PrefixesAgree(a: string, b: string, y: string, z: string)
    requires |a| == |b|
    ensures a + y == b + z <==> a == b && y == z
  {
    assert (a + y)[..|a|] == a && (b + z)[..|a|] == b && (a + y)[|a|..] == y && (b + z)[|a|..] == z;
  }

  /** Nothing is left to strip in a stripped source if and only if the source is steady. */
  lemma StrippedIsBareIff(source: string)
    ensures Bare(StripNonCode(source), ' ', 0) <==> Steady(source, ' ', 0)
  {
    BareIffFixed(StripNonCode(source), ' ', 0);
    TwiceIff(source, ' ', 0);
  }

  // ---- a source that is not steady -------------------------------------------------------------------------

  lemma CodeStep(c: char, rest: string, previous: char, depth: nat)
    requires '!' <= c <= '~' && c !in {'"', '\'', '`', '}'}
    requires c == '/' ==> !StartsRegex(previous) && !Comment([c] + rest)
    ensures Next([c] + rest, previous, depth) == Lex([c], c, depth)
    ensures Strip([c] + rest, previous, depth) == [c] + Strip(rest, c, depth)
  {
    VisibleIsNotSpace(c);
    StripStep([c] + rest, previous, depth);
  }

  lemma RegexStepOver(s: string, previous: char, depth: nat, n: nat, text: string, rest: string)
    requires RegexHere(s, previous) && RegexStop(s[1..], false) == n < |s|
    requires text == ['/'] + Blank(s[1..1 + n]) + Take(s[1 + n..], 1) && |text| <= |s| && rest == s[|text|..]
    ensures Strip(s, previous, depth) == text + Strip(rest, '/', depth)
  {
    StripStep(s, previous, depth);
  }

  lemma CutBody(body: string)
    requires body == "\\\n//"
    ensures RegexStop(body, false) == 2 && Blank(body[..2]) == " \n" && body[2..] == "//" && Take(body[2..], 1) == "/"
  {
    assert body[2..] == "//" && RegexStop("//", false) == 0;
    assert body[..2] == "\\\n";
  }

  lemma CutOnce(s: string, out: string)
    requires s == "/\\\n//" && out == "/ \n//"
    ensures Strip(s, '=', 0) == out
  {
    var body := s[1..];
    assert body == "\\\n//";
    CutBody(body);
    assert s[1..3] == body[..2] && s[3..] == body[2..] && s[4..] == "/";
    RegexStepOver(s, '=', 0, 2, "/ \n/", "/");
    assert "/" == ['/'] + "";
    CodeStep('/', "", '/', 0);
  }

  lemma CutTwice(s: string, out: string)
    requires s == "/ \n//" && out == "/ \n  "
    ensures Strip(s, '=', 0) == out
  {
    var body := " \n//";
    assert s[1..] == body && body[1..] == "\n//" && RegexStop("\n//", false) == 0;
    assert RegexStop(body, false) == 1;
    assert s[1..2] == " " && s[2..] == "\n//" && s[3..] == "//";
    assert Blank(" ") == " " && Take("\n//", 1) == "\n";
    RegexStepOver(s, '=', 0, 1, "/ \n", "//");
    assert "//"[1..] == "/" && "/"[1..] == "" && LineStop("/") == 1 && LineStop("//") == 2;
    assert "//"[..2] == "//" && Blank("//") == "  " && "//"[2..] == "";
    StripStep("//", '/', 0);
  }

  lemma BehindEquals(t: string, out: string)
    requires out == Strip(t, '=', 0)
    ensures StripNonCode("=" + t) == "=" + out
  {
    CodeStep('=', t, ' ', 0);
    assert "=" + t == ['='] + t && "=" + out == ['='] + out;
    assert ("=" + t)[1..] == t;
  }

  /** A regex literal cut by an escaped line feed: its closing slash then opens a comment. */
  lemma EscapedFeedStripsTwice(literal: string, once: string, twice: string)
    requires literal == "/\\\n//" && once == "/ \n//" && twice == "/ \n  "
    ensures StripNonCode("=" + literal) == "=" + once && StripNonCode("=" + once) == "=" + twice
    ensures "=" + once != "=" + twice && !Steady("=" + literal, ' ', 0)
  {
    CutOnce(literal, once);
    BehindEquals(literal, once);
    CutTwice(once, twice);
    BehindEquals(once, twice);
    assert ("=" + once)[4] != ("=" + twice)[4];
    StripTwiceIff("=" + literal);
  }
}
