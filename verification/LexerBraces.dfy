/**
 * Interpolations in template literals. The stripper of scripts/check-logging.ts says its stack keeps
 * them code; it never counts a brace, so the first `}` inside one resumes the template body. Here it
 * stands beside a reader that does count.
 */
module LexerBraces {
  import opened JsText
  import opened Lexer

  // ---- a reader that counts braces -------------------------------------------------------------------------

  /** A token with the open braces of every interpolation after it, the innermost last. */
  datatype Counted = Counted(text: string, previous: char, stack: seq<nat>)

  function Top(stack: seq<nat>): nat { if stack == [] then 0 else stack[|stack| - 1] }

  function WithTop(stack: seq<nat>, n: nat): seq<nat>
    requires stack != []
  {
    stack[|stack| - 1 := n]
  }

  /** The stack at another depth: a template opened, closed, or neither. */
  function AtDepth(stack: seq<nat>, depth: nat): seq<nat> {
    if depth > |stack| then stack + [0] else if depth < |stack| then stack[..|stack| - 1] else stack
  }

  /** A `}` that closes a brace of the code inside an interpolation. */
  predicate Nested(s: string, stack: seq<nat>) { s != "" && s[0] == '}' && Top(stack) > 0 }

  function NextCounted(s: string, previous: char, stack: seq<nat>): Counted
    requires s != ""
  {
    if s[0] == '{' && stack != [] then Counted("{", '{', WithTop(stack, Top(stack) + 1))
    else if Nested(s, stack) then Counted("}", '}', WithTop(stack, Top(stack) - 1))
    else
      var lex := Next(s, previous, |stack|);
      Counted(lex.text, lex.previous, AtDepth(stack, lex.depth))
  }

  lemma CountedLength(s: string, previous: char, stack: seq<nat>)
    requires s != ""
    ensures 0 < |NextCounted(s, previous, stack).text| <= |s|
  {
    NextLength(s, previous, |stack|);
  }

  function StripCounted(s: string, previous: char, stack: seq<nat>): string
    decreases |s|
  {
    if s == "" then ""
    else
      CountedLength(s, previous, stack);
      var c := NextCounted(s, previous, stack);
      c.text + StripCounted(s[|c.text|..], c.previous, c.stack)
  }

  // ---- token for token -------------------------------------------------------------------------------------

  /** What a reader made of a stretch of source; `body` says that a `}` was taken for the end of an interpolation. */
  datatype Piece = Piece(text: string, body: bool)

  function Pieces(s: string, previous: char, depth: nat): seq<Piece>
    decreases |s|
  {
    if s == "" then []
    else
      NextLength(s, previous, depth);
      var lex := Next(s, previous, depth);
      [Piece(lex.text, s[0] == '}' && depth > 0)] + Pieces(s[|lex.text|..], lex.previous, lex.depth)
  }

  function CountedPieces(s: string, previous: char, stack: seq<nat>): seq<Piece>
    decreases |s|
  {
    if s == "" then []
    else
      CountedLength(s, previous, stack);
      var c := NextCounted(s, previous, stack);
      [Piece(c.text, s[0] == '}' && stack != [] && !Nested(s, stack))] + CountedPieces(s[|c.text|..], c.previous, c.stack)
  }

  /** The counting reader meets a `}` that closes a brace inside an interpolation. */
  predicate MeetsNested(s: string, previous: char, stack: seq<nat>)
    decreases |s|
  {
    s != "" &&
    (CountedLength(s, previous, stack);
     var c := NextCounted(s, previous, stack);
     Nested(s, stack) || MeetsNested(s[|c.text|..], c.previous, c.stack))
  }

  lemma DepthMoves(s: string, previous: char, depth: nat)
    requires s != ""
    ensures var lex := Next(s, previous, depth); depth <= lex.depth + 1 && lex.depth <= depth + 1
  {
  }

  /** Until then the two readers take the same token and agree on what follows. */
  lemma SameToken(s: string, previous: char, stack: seq<nat>)
    requires s != "" && !Nested(s, stack)
    ensures var c, lex := NextCounted(s, previous, stack), Next(s, previous, |stack|);
            c.text == lex.text && c.previous == lex.previous && |c.stack| == lex.depth
  {
    DepthMoves(s, previous, |stack|);
    VisibleIsNotSpace('{');
  }

  lemma HeadsAgree(a: Piece, b: Piece, x: seq<Piece>, y: seq<Piece>)
    ensures [a] + x == [b] + y <==> a == b && x == y
  {
    assert ([a] + x)[0] == a && ([b] + y)[0] == b && ([a] + x)[1..] == x && ([b] + y)[1..] == y;
  }

  /**
   * The stripper reads a source token for token as the counting reader does if and only if that reader
   * never meets a `}` that closes a brace inside an interpolation.
   */
  lemma {:induction false} ReadAlikeIff(s: string, previous: char, stack: seq<nat>)
    ensures Pieces(s, previous, |stack|) == CountedPieces(s, previous, stack) <==> !MeetsNested(s, previous, stack)
    decreases |s|
  {
    if s != "" {
      var c, lex := NextCounted(s, previous, stack), Next(s, previous, |stack|);
      CountedLength(s, previous, stack);
      NextLength(s, previous, |stack|);
      var x, y := Pieces(s[|lex.text|..], lex.previous, lex.depth), CountedPieces(s[|c.text|..], c.previous, c.stack);
      var a, b := Piece(lex.text, s[0] == '}' && |stack| > 0), Piece(c.text, s[0] == '}' && stack != [] && !Nested(s, stack));
      HeadsAgree(a, b, x, y);
      if !Nested(s, stack) {
        SameToken(s, previous, stack);
        ReadAlikeIff(s[|c.text|..], c.previous, c.stack);
      }
    }
  }

  lemma {:induction false} StrippedAlike(s: string, previous: char, stack: seq<nat>)
    requires !MeetsNested(s, previous, stack)
    ensures Strip(s, previous, |stack|) == StripCounted(s, previous, stack)
    decreases |s|
  {
    if s != "" {
      var c := NextCounted(s, previous, stack);
      CountedLength(s, previous, stack);
      StripStep(s, previous, |stack|);
      SameToken(s, previous, stack);
      StrippedAlike(s[|c.text|..], c.previous, c.stack);
    }
  }

  /** The whole source: read alike exactly without such a `}`, and then stripped alike too. */
  lemma InterpolationsStayCodeIff(source: string)
    ensures Pieces(source, ' ', 0) == CountedPieces(source, ' ', []) <==> !MeetsNested(source, ' ', [])
    ensures !MeetsNested(source, ' ', []) ==> StripNonCode(source) == StripCounted(source, ' ', [])
  {
    ReadAlikeIff(source, ' ', []);
    if !MeetsNested(source, ' ', []) {
      StrippedAlike(source, ' ', []);
    }
  }

  // ---- which nested braces change what is left -------------------------------------------------------------

  /** The blanks and line feeds that stand first: both readers leave them as they are. */
  function Lead(b: string): (n: nat)
    ensures n <= |b|
  {
    if b != "" && (b[0] == ' ' || b[0] == '\n') then 1 + Lead(b[1..]) else 0
  }

  /** Behind them stands something that is neither a comment nor the end of a template body. */
  predicate Shows(b: string) {
    var rest := b[Lead(b)..];
    rest != "" && rest[0] != '`' && !At(rest, '$', '{') && !Comment(rest)
  }

  lemma LeadStep(b: string)
    requires b != "" && (b[0] == ' ' || b[0] == '\n')
    ensures Lead(b) == 1 + Lead(b[1..]) && b[Lead(b)..] == b[1..][Lead(b[1..])..] && (Shows(b) <==> Shows(b[1..]))
  {
  }

  lemma FirstCounted(s: string, previous: char, stack: seq<nat>)
    requires s != "" && !Comment(s)
    ensures var t := NextCounted(s, previous, stack).text; t != "" && t[0] == s[0]
  {
    NextLength(s, previous, |stack|);
  }

  lemma BlankIsCounted(s: string, previous: char, stack: seq<nat>)
    requires s != "" && (s[0] == ' ' || s[0] == '\n')
    ensures StripCounted(s, previous, stack) == [s[0]] + StripCounted(s[1..], previous, stack)
  {
    assert IsSpace(s[0]) && NextCounted(s, previous, stack) == Counted([s[0]], previous, stack);
  }

  /** The counting reader keeps the first character that shows. */
  lemma {:induction false} ShownIsKept(b: string, previous: char, stack: seq<nat>)
    requires Shows(b)
    ensures var x := StripCounted(b, previous, stack); Lead(b) < |b| && Lead(b) < |x| && x[Lead(b)] == b[Lead(b)]
    decreases |b|
  {
    if b[0] == ' ' || b[0] == '\n' {
      LeadStep(b);
      ShownIsKept(b[1..], previous, stack);
      BlankIsCounted(b, previous, stack);
    } else {
      assert b[0..] == b;
      FirstCounted(b, previous, stack);
      CountedLength(b, previous, stack);
    }
  }

  lemma {:induction false} ShownIsBody(b: string)
    requires Shows(b)
    ensures Lead(b) < TemplateStop(b) && b[Lead(b)] != ' ' && b[Lead(b)] != '\n'
    decreases |b|
  {
    if b[0] == ' ' || b[0] == '\n' {
      LeadStep(b);
      ShownIsBody(b[1..]);
    } else {
      assert b[0..] == b;
    }
  }

  /** The stripper blanks it. */
  lemma ShownIsLost(s: string, previous: char, depth: nat)
    requires depth > 0 && s != "" && s[0] == '}' && Shows(s[1..])
    ensures var x := Strip(s, previous, depth); 1 + Lead(s[1..]) < |x| && x[1 + Lead(s[1..])] == ' '
  {
    var b, n := s[1..], Lead(s[1..]);
    ShownIsBody(b);
    BodyText("}", b, previous, depth);
    StripStep(s, previous, depth);
    assert Blank(b[..TemplateStop(b)])[n] == BlankChar(b[n]);
    assert Next(s, previous, depth).text[1 + n] == ' ';
  }

  lemma NestedChanges(s: string, previous: char, stack: seq<nat>)
    requires Nested(s, stack) && Shows(s[1..])
    ensures Strip(s, previous, |stack|) != StripCounted(s, previous, stack)
  {
    var b, n := s[1..], Lead(s[1..]);
    ShownIsLost(s, previous, |stack|);
    ShownIsBody(b);
    ShownIsKept(b, '}', WithTop(stack, Top(stack) - 1));
    assert StripCounted(s, previous, stack) == "}" + StripCounted(b, '}', WithTop(stack, Top(stack) - 1));
    assert StripCounted(s, previous, stack)[1 + n] == b[n];
  }

  /** Something shows behind the first `}` that closes a brace inside an interpolation. */
  predicate FirstShows(s: string, previous: char, stack: seq<nat>)
    decreases |s|
  {
    s != "" &&
    (CountedLength(s, previous, stack);
     var c := NextCounted(s, previous, stack);
     if Nested(s, stack) then Shows(s[1..]) else FirstShows(s[|c.text|..], c.previous, c.stack))
  }

  lemma SameHeads(a: string, x: string, y: string)
    requires x != y
    ensures a + x != a + y
  {
    assert (a + x)[|a|..] == x && (a + y)[|a|..] == y;
  }

  lemma {:induction false} ShownChanges(s: string, previous: char, stack: seq<nat>)
    requires FirstShows(s, previous, stack)
    ensures Strip(s, previous, |stack|) != StripCounted(s, previous, stack)
    decreases |s|
  {
    if Nested(s, stack) {
      NestedChanges(s, previous, stack);
    } else {
      var c := NextCounted(s, previous, stack);
      CountedLength(s, previous, stack);
      StripStep(s, previous, |stack|);
      SameToken(s, previous, stack);
      ShownChanges(s[|c.text|..], c.previous, c.stack);
      SameHeads(c.text, Strip(s[|c.text|..], c.previous, |c.stack|), StripCounted(s[|c.text|..], c.previous, c.stack));
    }
  }

  /** The whole source: where something shows behind the first such `}`, the stripper loses it. */
  lemma NestedBraceChanges(source: string)
    requires FirstShows(source, ' ', [])
    ensures StripNonCode(source) != StripCounted(source, ' ', [])
  {
    ShownChanges(source, ' ', []);
  }

  // ---- an interpolation that is lost -----------------------------------------------------------------------

  /** Characters that are code on their own wherever they stand. */
  predicate Plain(c: char) { '!' <= c <= '~' && c !in {'"', '\'', '`', '{', '}', '/'} }

  predicate AllPlain(u: string) { forall k :: 0 <= k < |u| ==> Plain(u[k]) }

  function LastOf(u: string, previous: char): char { if u == "" then previous else u[|u| - 1] }

  lemma PlainNext(c: char, rest: string, previous: char, stack: seq<nat>)
    requires Plain(c)
    ensures Next([c] + rest, previous, |stack|) == Lex([c], c, |stack|)
    ensures NextCounted([c] + rest, previous, stack) == Counted([c], c, stack)
  {
    VisibleIsNotSpace(c);
  }

  lemma PlainStep(c: char, rest: string, previous: char, stack: seq<nat>)
    requires Plain(c)
    ensures Strip([c] + rest, previous, |stack|) == [c] + Strip(rest, c, |stack|)
    ensures StripCounted([c] + rest, previous, stack) == [c] + StripCounted(rest, c, stack)
  {
    PlainNext(c, rest, previous, stack);
    StripStep([c] + rest, previous, |stack|);
    assert ([c] + rest)[1..] == rest;
  }

  lemma FirstApart(u: string) returns (c: char, v: string)
    requires u != "" && AllPlain(u)
    ensures u == [c] + v && |v| < |u| && Plain(c) && AllPlain(v) && forall p: char :: LastOf(u, p) == LastOf(v, c)
  {
    c, v := u[0], u[1..];
  }

  lemma Joined(c: char, v: string, y: string)
    ensures [c] + v + y == [c] + (v + y)
  {
  }

  lemma {:induction false} PlainRun(u: string, rest: string, previous: char, stack: seq<nat>)
    requires AllPlain(u)
    ensures Strip(u + rest, previous, |stack|) == u + Strip(rest, LastOf(u, previous), |stack|)
    ensures StripCounted(u + rest, previous, stack) == u + StripCounted(rest, LastOf(u, previous), stack)
    decreases |u|
  {
    if u == "" {
      assert u + rest == rest;
    } else {
      var c, v := FirstApart(u);
      var last := LastOf(u, previous);
      PlainRun(v, rest, c, stack);
      PlainStep(c, v + rest, previous, stack);
      Joined(c, v, rest);
      Joined(c, v, Strip(rest, last, |stack|));
      Joined(c, v, StripCounted(rest, last, stack));
    }
  }

  /** Characters a template body runs through. */
  predicate Bland(u: string) { forall k :: 0 <= k < |u| ==> u[k] !in {'`', '$', '\\'} }

  lemma {:induction false} BlandRuns(u: string)
    requires Bland(u)
    ensures TemplateStop(u + "`") == |u|
  {
    if u == "" {
      assert u + "`" == "`";
    } else {
      BlandRuns(u[1..]);
      assert (u + "`")[1..] == u[1..] + "`";
    }
  }

  /** The body that is resumed runs up to the closing back quote. */
  lemma ResumedBody(u: string, previous: char)
    requires Bland(u)
    ensures Strip("}" + (u + "`"), previous, 1) == "}" + (Blank(u) + "`")
  {
    var s, b := "}" + (u + "`"), u + "`";
    BlandRuns(u);
    assert s[1..] == b && b[..|u|] == u && b[|u|] == '`';
    var text := "}" + Blank(u) + "`";
    assert Next(s, previous, 1) == Lex(text, previous, 0);
    StripStep(s, previous, 1);
    assert |text| == |s| && s[|s|..] == "";
    assert text == "}" + (Blank(u) + "`");
  }

  lemma CountedStep(s: string, previous: char, stack: seq<nat>, c: Counted, rest: string)
    requires s != "" && NextCounted(s, previous, stack) == c && |c.text| <= |s| && s[|c.text|..] == rest
    ensures StripCounted(s, previous, stack) == c.text + StripCounted(rest, c.previous, c.stack)
  {
  }

  lemma OpensInterpolation(s: string, previous: char)
    ensures Strip("`${" + s, previous, 0) == "`${" + Strip(s, '`', 1)
    ensures StripCounted("`${" + s, previous, []) == "`${" + StripCounted(s, '`', [0])
    ensures MeetsNested("`${" + s, previous, []) == MeetsNested(s, '`', [0])
  {
    var whole, b := "`${" + s, "${" + s;
    assert whole[1..] == b && At(b, '$', '{') && TemplateStop(b) == 0 && b[..0] == "" && b[0..] == b;
    assert b[..2] == "${" && "`" + Blank("") + Take(b, 2) == "`${";
    assert Next(whole, previous, 0) == Lex("`${", '`', 1);
    assert whole[3..] == s;
    StripStep(whole, previous, 0);
    CountedStep(whole, previous, [], Counted("`${", '`', [0]), s);
  }

  lemma BraceNext(whole: string, previous: char)
    requires whole != "" && whole[0] == '{'
    ensures Next(whole, previous, 1) == Lex("{", '{', 1) && NextCounted(whole, previous, [0]) == Counted("{", '{', [1])
  {
    VisibleIsNotSpace('{');
    assert WithTop([0], 1) == [1];
  }

  lemma OpensBrace(s: string, previous: char)
    ensures Strip("{" + s, previous, 1) == "{" + Strip(s, '{', 1)
    ensures StripCounted("{" + s, previous, [0]) == "{" + StripCounted(s, '{', [1])
    ensures MeetsNested("{" + s, previous, [0]) == MeetsNested(s, '{', [1])
  {
    var whole := "{" + s;
    BraceNext(whole, previous);
    assert whole[1..] == s;
    StripStep(whole, previous, 1);
    CountedStep(whole, previous, [0], Counted("{", '{', [1]), s);
  }

  lemma ClosesBrace(s: string, previous: char)
    ensures StripCounted("}" + s, previous, [1]) == "}" + StripCounted(s, '}', [0])
  {
    var whole := "}" + s;
    assert WithTop([1], 0) == [0] && whole[1..] == s;
    CountedStep(whole, previous, [1], Counted("}", '}', [0]), s);
  }

  lemma ClosesTemplate(previous: char)
    ensures StripCounted("}`", previous, [0]) == "}`"
  {
    var s := "}`";
    assert s[1..] == "`" && TemplateStop("`") == 0 && "`"[..0] == "" && "}" + Blank("") + "`" == s;
    assert Next(s, previous, 1) == Lex(s, previous, 0);
    assert s[2..] == "";
  }

  function Interpolated(a: string, b: string): string { "`${" + ("{" + (a + ("}" + (b + "}`")))) }

  /** The counting reader keeps all of it. */
  lemma InterpolationKept(a: string, b: string)
    requires AllPlain(a) && AllPlain(b)
    ensures StripCounted(Interpolated(a, b), ' ', []) == Interpolated(a, b)
  {
    OpensInterpolation("{" + (a + ("}" + (b + "}`"))), ' ');
    OpensBrace(a + ("}" + (b + "}`")), '`');
    PlainRun(a, "}" + (b + "}`"), '{', [1]);
    ClosesBrace(b + "}`", LastOf(a, '{'));
    PlainRun(b, "}`", '}', [0]);
    ClosesTemplate(LastOf(b, '}'));
  }

  /**
   * Whatever stands behind an object literal inside an interpolation is blanked as if it were text of
   * the template: `a` stays, `b` is lost.
   */
  lemma InterpolationLost(a: string, b: string)
    requires AllPlain(a) && AllPlain(b) && Bland(b)
    ensures StripNonCode(Interpolated(a, b)) == "`${" + ("{" + (a + ("}" + (Blank(b + "}") + "`"))))
    ensures MeetsNested(Interpolated(a, b), ' ', []) || b == ""
  {
    OpensInterpolation("{" + (a + ("}" + (b + "}`"))), ' ');
    OpensBrace(a + ("}" + (b + "}`")), '`');
    PlainRun(a, "}" + (b + "}`"), '{', [1]);
    assert b + "}`" == b + "}" + "`";
    ResumedBody(b + "}", LastOf(a, '{'));
    if b != "" && !MeetsNested(Interpolated(a, b), ' ', []) {
      InterpolationKept(a, b);
      InterpolationsStayCodeIff(Interpolated(a, b));
      LostFirst(a, b);
    }
  }

  lemma LostFirst(a: string, b: string)
    requires AllPlain(b) && b != ""
    ensures "`${" + ("{" + (a + ("}" + (Blank(b + "}") + "`")))) != Interpolated(a, b)
  {
    var k := |a| + 5;
    assert Interpolated(a, b)[k] == b[0];
    assert ("`${" + ("{" + (a + ("}" + (Blank(b + "}") + "`")))))[k] == BlankChar(b[0]);
  }

  /** An error's message, logged through such an interpolation, is gone before anything is searched. */
  lemma MessageIsLost(source: string, stripped: string)
    requires source == "`${{a:1}.e.message}`" && stripped == "`${{a:1}           `"
    ensures StripNonCode(source) == stripped
  {
    var a, b, blanks := "a:1", ".e.message", "           ";
    MessageShape(source, stripped, a, b, blanks);
    InterpolationLost(a, b);
  }

  lemma MessageShape(source: string, stripped: string, a: string, b: string, blanks: string)
    requires source == "`${{a:1}.e.message}`" && stripped == "`${{a:1}           `"
    requires a == "a:1" && b == ".e.message" && blanks == "           "
    ensures AllPlain(a) && AllPlain(b) && Bland(b)
    ensures source == Interpolated(a, b) && stripped == "`${" + ("{" + (a + ("}" + (Blank(b + "}") + "`"))))
  {
    BlankedMessage(b, blanks);
  }

  lemma BlankedMessage(b: string, blanks: string)
    requires b == ".e.message" && blanks == "           "
    ensures Blank(b + "}") == blanks
  {
  }

  /** Nothing shows behind the nested brace of this source: the readers part there, and both leave it as it is. */
  lemma NestedBraceMayBeHarmless()
    ensures var source := "`${" + ("{" + "}`");
            MeetsNested(source, ' ', []) && StripNonCode(source) == source && StripCounted(source, ' ', []) == source
  {
    OpensInterpolation("{" + "}`", ' ');
    OpensBrace("}`", '`');
    ResumedBody("", '{');
    assert "}" + ("" + "`") == "}`" && Blank("") + "`" == "`";
    ClosesBrace("`", '{');
    LoneMark("`");
    assert "}" + "`" == "}`";
    assert Nested("}`", [1]);
  }

  lemma LoneMark(s: string)
    requires s == "`"
    ensures StripCounted(s, '}', [0]) == s
  {
    assert s[1..] == "" && TemplateStop("") == 0 && ""[..0] == "" && "`" + Blank("") == s;
    assert Next(s, '}', 1) == Lex(s, '`', 2);
    CountedStep(s, '}', [0], NextCounted(s, '}', [0]), "");
  }
}
