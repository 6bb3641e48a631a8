/**
 * The source stripper of scripts/check-logging.ts: comments, string bodies, template bodies and
 * regex literals are blanked in place, so that what is left can be searched and its lines reported.
 */
module Lexer {
  import opened JsText

  // ---- blanking --------------------------------------------------------------------------------

  function BlankChar(c: char): char { if c == '\n' then '\n' else ' ' }

  function Blank(s: string): string { seq(|s|, k requires 0 <= k < |s| => BlankChar(s[k])) }

  /** A text with some characters turned to spaces: same length, same line feeds, nothing else changed. */
  ghost predicate Blanked(s: string, t: string) {
    |t| == |s| && forall k :: 0 <= k < |s| ==> t[k] == s[k] || (t[k] == ' ' && s[k] != '\n')
  }

  // ---- where a token stops -----------------------------------------------------------------------

  predicate At(s: string, a: char, b: char) { |s| > 1 && s[0] == a && s[1] == b }

  function LineStop(s: string): (n: nat)
    ensures n <= |s|
  {
    if s == "" || s[0] == '\n' then 0 else 1 + LineStop(s[1..])
  }

  /** After the closing mark, or at the end when there is none. */
  function CloseStop(s: string): (n: nat)
    ensures n <= |s|
  {
    if |s| < 2 then |s|
    else if s[0] == '*' && s[1] == '/' then 2
    else 1 + CloseStop(s[1..])
  }

  /** The closing quote, a line feed, or the end; an escape takes the character after it unless that is a line feed. */
  function StringStop(b: string, quote: char): (n: nat)
    ensures n <= |b|
  {
    if b == "" || b[0] == quote || b[0] == '\n' then 0
    else if b[0] == '\\' then
      if |b| == 1 || b[1] == '\n' then 1 else 2 + StringStop(b[2..], quote)
    else 1 + StringStop(b[1..], quote)
  }

  /** The closing back quote, the opening of an interpolation, or the end. */
  function TemplateStop(b: string): (n: nat)
    ensures n <= |b|
  {
    if b == "" || b[0] == '`' || At(b, '$', '{') then 0
    else if b[0] == '\\' then if |b| == 1 then 1 else 2 + TemplateStop(b[2..])
    else 1 + TemplateStop(b[1..])
  }

  /** The closing slash outside a class, a line feed that is not escaped, or the end. */
  function RegexStop(b: string, inClass: bool): (n: nat)
    ensures n <= |b|
  {
    if b == "" then 0
    else if b[0] == '\\' then if |b| == 1 then 1 else 2 + RegexStop(b[2..], inClass)
    else if b[0] == '[' then 1 + RegexStop(b[1..], true)
    else if b[0] == ']' then 1 + RegexStop(b[1..], false)
    else if (b[0] == '/' && !inClass) || b[0] == '\n' then 0
    else 1 + RegexStop(b[1..], inClass)
  }

  // ---- one token ------------------------------------------------------------------------------------

  /** What a token becomes, the last significant character and the template depth after it. */
  datatype Lex = Lex(text: string, previous: char, depth: nat)

  /** The characters after which a slash starts a regex; a space stands for none yet. */
  predicate StartsRegex(previous: char) {
    previous in {'(', ',', '=', ':', '[', '!', '&', '|', '?', '{', '}', ';', '+', '-', '*', '%', '<', '>', '~', '^'}
  }

  function Take(s: string, n: nat): string { if n < |s| then s[..n] else s }

  function Drop(s: string, n: nat): string { if n < |s| then s[n..] else "" }

  /** The end of a template body: its back quote closes it, an interpolation opens code. */
  function AfterBody(head: string, t: string, previous: char, depth: nat): Lex
    requires depth > 0
  {
    var n := TemplateStop(t);
    var body := head + Blank(t[..n]);
    if n == |t| then Lex(body, previous, depth)
    else if t[n] == '`' then Lex(body + "`", previous, depth - 1)
    else Lex(body + Take(t[n..], 2), previous, depth)
  }

  /** A literal between two kept characters: the opening one, and the one it stops at. */
  function Quoted(s: string, n: nat, previous: char, depth: nat): Lex
    requires s != "" && n < |s|
  {
    Lex([s[0]] + Blank(s[1..1 + n]) + Take(s[1 + n..], 1), previous, depth)
  }

  function Next(s: string, previous: char, depth: nat): Lex
    requires s != ""
  {
    if At(s, '/', '/') then Lex(Blank(s[..LineStop(s)]), previous, depth)
    else if At(s, '/', '*') then Lex(Blank(s[..2 + CloseStop(s[2..])]), previous, depth)
    else if s[0] == '"' || s[0] == '\'' then Quoted(s, StringStop(s[1..], s[0]), s[0], depth)
    else if s[0] == '`' then AfterBody("`", s[1..], '`', depth + 1)
    else if s[0] == '}' && depth > 0 then AfterBody("}", s[1..], previous, depth)
    else if s[0] == '/' && StartsRegex(previous) then Quoted(s, RegexStop(s[1..], false), '/', depth)
    else Lex([s[0]], if IsSpace(s[0]) then previous else s[0], depth)
  }

  lemma BlankedTogether(a: string, b: string, x: string, y: string)
    requires Blanked(a, x) && Blanked(b, y)
    ensures Blanked(a + b, x + y)
  {
  }

  lemma QuotedShape(s: string, n: nat, previous: char, depth: nat)
    requires s != "" && n < |s|
    ensures var t := Quoted(s, n, previous, depth).text; 0 < |t| <= |s| && Blanked(s[..|t|], t)
  {
  }

  lemma AfterBodyShape(c: char, t: string, previous: char, depth: nat)
    requires depth > 0
    ensures var x := AfterBody([c], t, previous, depth).text; 0 < |x| <= |t| + 1 && Blanked(([c] + t)[..|x|], x)
  {
  }

  /** A token takes at least one character, and blanks some of those it takes. */
  lemma NextLength(s: string, previous: char, depth: nat)
    requires s != ""
    ensures 0 < |Next(s, previous, depth).text| <= |s|
    ensures Blanked(s[..|Next(s, previous, depth).text|], Next(s, previous, depth).text)
  {
    assert s == [s[0]] + s[1..];
    if At(s, '/', '/') {
    } else if At(s, '/', '*') {
    } else if s[0] == '"' || s[0] == '\'' {
      QuotedShape(s, StringStop(s[1..], s[0]), s[0], depth);
    } else if s[0] == '`' {
      AfterBodyShape('`', s[1..], '`', depth + 1);
    } else if s[0] == '}' && depth > 0 {
      AfterBodyShape('}', s[1..], previous, depth);
    } else if s[0] == '/' && StartsRegex(previous) {
      QuotedShape(s, RegexStop(s[1..], false), '/', depth);
    }
  }

  function Strip(s: string, previous: char, depth: nat): string
    decreases |s|
  {
    if s == "" then ""
    else
      NextLength(s, previous, depth);
      var lex := Next(s, previous, depth);
      lex.text + Strip(s[|lex.text|..], lex.previous, lex.depth)
  }

  /** The whole source, from its first character. */
  function StripNonCode(source: string): string { Strip(source, ' ', 0) }

  /** Length and every line feed are kept, and characters change to spaces only. */
  lemma {:induction false} StripOnlyBlanks(s: string, previous: char, depth: nat)
    ensures Blanked(s, Strip(s, previous, depth))
    decreases |s|
  {
    if s != "" {
      NextLength(s, previous, depth);
      var lex := Next(s, previous, depth);
      var n := |lex.text|;
      StripOnlyBlanks(s[n..], lex.previous, lex.depth);
      BlankedTogether(s[..n], s[n..], lex.text, Strip(s[n..], lex.previous, lex.depth));
      assert s == s[..n] + s[n..];
    }
  }

  // ---- what a token blanks ---------------------------------------------------------------------------------

  predicate Comment(s: string) { At(s, '/', '/') || At(s, '/', '*') }

  predicate RegexHere(s: string, previous: char) { s != "" && !Comment(s) && s[0] == '/' && StartsRegex(previous) }

  predicate Spaces(u: string) { forall k :: 0 <= k < |u| ==> u[k] == ' ' }

  predicate Void(u: string) { forall k :: 0 <= k < |u| ==> u[k] == ' ' || u[k] == '\n' }

  lemma BlankIsVoid(s: string)
    ensures Void(Blank(s)) && Blank(Blank(s)) == Blank(s) && ('\n' !in s ==> Spaces(Blank(s)))
  {
    if '\n' !in s {
      assert forall k :: 0 <= k < |s| ==> s[k] in s;
    }
  }

  // Where a token stops, and that it stops there again once its body is blank.

  /** An odd run of backslashes stands before position `k`. */
  predicate Escaped(b: string, k: nat)
    requires k <= |b|
  {
    k > 0 && b[k - 1] == '\\' && !Escaped(b, k - 1)
  }

  lemma {:induction false} EscapedAfter(b: string, n: nat, k: nat)
    requires n <= k <= |b| && !Escaped(b, n)
    ensures Escaped(b, k) == Escaped(b[n..], k - n)
  {
    if k > n {
      EscapedAfter(b, n, k - 1);
    }
  }

  /** The body of a string ends at the first line feed or unescaped quote, whichever comes first. */
  ghost predicate StringEndsAt(b: string, quote: char, n: nat) {
    && n <= |b|
    && (n < |b| ==> b[n] == '\n' || (b[n] == quote && !Escaped(b, n)))
    && forall k :: 0 <= k < n ==> b[k] != '\n' && (b[k] == quote ==> Escaped(b, k))
  }

  lemma StringEndsLater(b: string, quote: char, m: nat, n: nat)
    requires m <= |b| && !Escaped(b, m) && StringEndsAt(b[m..], quote, n)
    requires forall k :: 0 <= k < m ==> b[k] != '\n' && (b[k] == quote ==> Escaped(b, k))
    ensures StringEndsAt(b, quote, m + n)
  {
    forall k | m <= k <= m + n
      ensures Escaped(b, k) == Escaped(b[m..], k - m) && (k < |b| ==> b[k] == b[m..][k - m])
    {
      EscapedAfter(b, m, k);
    }
  }

  lemma {:induction false} StringStops(b: string, quote: char)
    requires quote != '\\' && quote != '\n'
    ensures StringEndsAt(b, quote, StringStop(b, quote)) && '\n' !in b[..StringStop(b, quote)]
  {
    if b == "" || b[0] == quote || b[0] == '\n' {
    } else if b[0] == '\\' && |b| > 1 && b[1] != '\n' {
      StringStops(b[2..], quote);
      assert !Escaped(b, 0) && Escaped(b, 1) && !Escaped(b, 2);
      StringEndsLater(b, quote, 2, StringStop(b[2..], quote));
    } else if b[0] != '\\' {
      StringStops(b[1..], quote);
      StringEndsLater(b, quote, 1, StringStop(b[1..], quote));
    }
  }

  predicate TemplateMark(b: string, k: nat)
    requires k < |b|
  {
    b[k] == '`' || At(b[k..], '$', '{')
  }

  /** A template body ends at the first unescaped back quote or opening of an interpolation. */
  ghost predicate TemplateEndsAt(b: string, n: nat) {
    && n <= |b|
    && (n < |b| ==> TemplateMark(b, n) && !Escaped(b, n))
    && forall k :: 0 <= k < n && TemplateMark(b, k) ==> Escaped(b, k)
  }

  lemma TemplateEndsLater(b: string, m: nat, n: nat)
    requires m <= |b| && !Escaped(b, m) && TemplateEndsAt(b[m..], n)
    requires forall k :: 0 <= k < m && TemplateMark(b, k) ==> Escaped(b, k)
    ensures TemplateEndsAt(b, m + n)
  {
    forall k | m <= k <= m + n
      ensures Escaped(b, k) == Escaped(b[m..], k - m) && (k < |b| ==> TemplateMark(b, k) == TemplateMark(b[m..], k - m))
    {
      EscapedAfter(b, m, k);
      assert b[m..][k - m..] == b[k..];
    }
  }

  lemma {:induction false} TemplateStops(b: string)
    ensures TemplateEndsAt(b, TemplateStop(b))
  {
    if b == "" || b[0] == '`' || At(b, '$', '{') {
      assert b[0..] == b;
    } else if b[0] == '\\' && |b| > 1 {
      TemplateStops(b[2..]);
      assert !Escaped(b, 0) && Escaped(b, 1) && !Escaped(b, 2);
      assert b[0..] == b;
      TemplateEndsLater(b, 2, TemplateStop(b[2..]));
    } else if b[0] != '\\' {
      TemplateStops(b[1..]);
      assert b[0..] == b;
      TemplateEndsLater(b, 1, TemplateStop(b[1..]));
    } else {
      assert b[0..] == b;
    }
  }

  /** The class a pattern is in after one of its characters. */
  function InClassAfter(c: char, inClass: bool): bool { if c == '[' then true else if c == ']' then false else inClass }

  /** Whether position `k` stands inside a class, where escaped brackets do not count. */
  predicate ClassAt(b: string, inClass: bool, k: nat)
    requires k <= |b|
  {
    if k == 0 then inClass
    else if Escaped(b, k - 1) then ClassAt(b, inClass, k - 1)
    else InClassAfter(b[k - 1], ClassAt(b, inClass, k - 1))
  }

  lemma {:induction false} ClassAfter(b: string, inClass: bool, n: nat, k: nat)
    requires n <= k <= |b| && !Escaped(b, n)
    ensures ClassAt(b, inClass, k) == ClassAt(b[n..], ClassAt(b, inClass, n), k - n)
  {
    if k > n {
      ClassAfter(b, inClass, n, k - 1);
      EscapedAfter(b, n, k - 1);
    }
  }

  predicate RegexMark(b: string, inClass: bool, k: nat)
    requires k < |b|
  {
    !Escaped(b, k) && (b[k] == '\n' || (b[k] == '/' && !ClassAt(b, inClass, k)))
  }

  /** A regex body ends at the first unescaped line feed, or slash outside a class. */
  ghost predicate RegexEndsAt(b: string, inClass: bool, n: nat) {
    n <= |b| && (n < |b| ==> RegexMark(b, inClass, n)) && forall k :: 0 <= k < n ==> !RegexMark(b, inClass, k)
  }

  lemma RegexEndsLater(b: string, inClass: bool, m: nat, n: nat)
    requires m <= |b| && !Escaped(b, m) && RegexEndsAt(b[m..], ClassAt(b, inClass, m), n)
    requires forall k :: 0 <= k < m ==> !RegexMark(b, inClass, k)
    ensures RegexEndsAt(b, inClass, m + n)
  {
    forall k | m <= k <= m + n && k < |b|
      ensures RegexMark(b, inClass, k) == RegexMark(b[m..], ClassAt(b, inClass, m), k - m)
    {
      EscapedAfter(b, m, k);
      ClassAfter(b, inClass, m, k);
    }
  }

  lemma {:induction false} RegexStops(b: string, inClass: bool)
    ensures RegexEndsAt(b, inClass, RegexStop(b, inClass))
  {
    if b != "" {
      assert !Escaped(b, 0) && ClassAt(b, inClass, 0) == inClass;
      if b[0] == '\\' {
        assert !RegexMark(b, inClass, 0);
        if |b| > 1 {
          RegexStops(b[2..], inClass);
          assert Escaped(b, 1) && !Escaped(b, 2);
          assert ClassAt(b, inClass, 1) == inClass && ClassAt(b, inClass, 2) == inClass;
          RegexEndsLater(b, inClass, 2, RegexStop(b[2..], inClass));
        }
      } else if !RegexMark(b, inClass, 0) {
        var after := InClassAfter(b[0], inClass);
        RegexStops(b[1..], after);
        assert !Escaped(b, 1) && ClassAt(b, inClass, 1) == after;
        RegexEndsLater(b, inClass, 1, RegexStop(b[1..], after));
      }
    }
  }

  lemma StripStep(s: string, previous: char, depth: nat)
    requires s != ""
    ensures var lex := Next(s, previous, depth);
            0 < |lex.text| <= |s| && Strip(s, previous, depth) == lex.text + Strip(s[|lex.text|..], lex.previous, lex.depth)
  {
    NextLength(s, previous, depth);
  }

  lemma {:induction false} LineStops(s: string)
    ensures var n := LineStop(s); '\n' !in s[..n] && (n < |s| ==> s[n] == '\n')
  {
    if s != "" && s[0] != '\n' {
      LineStops(s[1..]);
      assert s[..LineStop(s)] == [s[0]] + s[1..][..LineStop(s[1..])];
    }
  }

  /** Right behind the first closing mark, or at the end where there is none. */
  lemma {:induction false} CloseStops(s: string)
    ensures var n := CloseStop(s);
            && (n == |s| || (n >= 2 && s[n - 2] == '*' && s[n - 1] == '/'))
            && forall k :: 0 <= k < |s| - 1 && s[k] == '*' && s[k + 1] == '/' ==> k + 2 >= n
  {
    if |s| >= 2 && !At(s, '*', '/') {
      CloseStops(s[1..]);
      forall k | 0 <= k < |s| - 1 && s[k] == '*' && s[k + 1] == '/'
        ensures k + 2 >= CloseStop(s)
      {
        assert s[1..][k - 1] == '*' && s[1..][k - 1 + 1] == '/';
      }
    }
  }

  /** The mark a template body ends with. */
  function BodyMark(b: string, n: nat): string
    requires n <= |b|
  {
    if n == |b| then "" else if b[n] == '`' then "`" else Take(b[n..], 2)
  }

  lemma BodyText(head: string, b: string, previous: char, depth: nat)
    requires depth > 0
    ensures var n, lex := TemplateStop(b), AfterBody(head, b, previous, depth);
            && lex.text == head + Blank(b[..n]) + BodyMark(b, n)
            && lex.depth == (if n < |b| && b[n] == '`' then depth - 1 else depth)
            && (n < |b| && b[n] != '`' ==> At(b[n..], '$', '{'))
  {
    TemplateStops(b);
  }

  predicate Template(s: string) { s != "" && (s[0] == '`' || s[0] == '}') }

  lemma TemplateBlanks(s: string, previous: char, depth: nat)
    requires Template(s) && (s[0] == '}' ==> depth > 0)
    ensures var lex, n := Next(s, previous, depth), TemplateStop(s[1..]);
            BodyEndsAt(s, n) && lex.text == [s[0]] + Blank(s[1..1 + n]) + Take(s[1 + n..], MarkLength(s[1 + n..]))
  {
    var b, n := s[1..], TemplateStop(s[1..]);
    TemplateStops(b);
    BodyText([s[0]], b, if s[0] == '`' then '`' else previous, if s[0] == '`' then depth + 1 else depth);
    assert b[n..] == s[1 + n..] && b[..n] == s[1..1 + n];
  }

  /** A body stands here: of a string, of a regex literal, or of a template behind its opening mark or its code. */
  predicate LiteralHere(s: string, previous: char, depth: nat) {
    s != "" && (s[0] == '"' || s[0] == '\'' || s[0] == '`' || (s[0] == '}' && depth > 0) || RegexHere(s, previous))
  }

  /** Where the body of a literal ends. */
  ghost predicate BodyEndsAt(s: string, n: nat)
    requires s != ""
  {
    match s[0]
    case '/' => RegexEndsAt(s[1..], false, n)
    case '"' => StringEndsAt(s[1..], '"', n)
    case '\'' => StringEndsAt(s[1..], '\'', n)
    case _ => TemplateEndsAt(s[1..], n)
  }

  /** The marks that end a body: both characters that open an interpolation, else one. */
  function MarkLength(s: string): nat { if At(s, '$', '{') then 2 else 1 }

  /**
   * A comment turns into blanks up to its end; of a literal only the marks around its body survive;
   * anything else is one character of code and stays.
   */
  lemma TokenIsBlanked(s: string, previous: char, depth: nat)
    requires s != ""
    ensures var lex := Next(s, previous, depth);
            if At(s, '/', '/') then
              Void(lex.text) && '\n' !in s[..|lex.text|] && (|lex.text| < |s| ==> s[|lex.text|] == '\n')
            else if At(s, '/', '*') then
              Void(lex.text) && |lex.text| == 2 + CloseStop(s[2..])
            else if LiteralHere(s, previous, depth) then
              exists n: nat :: n < |s| && BodyEndsAt(s, n)
                && lex.text == [s[0]] + Blank(s[1..1 + n]) + Take(s[1 + n..], if Template(s) then MarkLength(s[1 + n..]) else 1)
            else
              lex.text == [s[0]]
  {
    if At(s, '/', '/') {
      LineStops(s);
      BlankIsVoid(s[..LineStop(s)]);
    } else if At(s, '/', '*') {
      BlankIsVoid(s[..2 + CloseStop(s[2..])]);
    } else if s[0] == '"' || s[0] == '\'' {
      StringStops(s[1..], s[0]);
      assert BodyEndsAt(s, StringStop(s[1..], s[0]));
    } else if RegexHere(s, previous) {
      RegexStops(s[1..], false);
      assert BodyEndsAt(s, RegexStop(s[1..], false));
    } else if LiteralHere(s, previous, depth) {
      TemplateBlanks(s, previous, depth);
    }
  }

  // ---- lines -----------------------------------------------------------------------------------------------

  /** Splitting at line feeds, what the report counts: one more than the feeds before a position. */
  function LineOf(s: string, k: nat): nat
    requires k <= |s|
  {
    if k == 0 then 1 else LineOf(s, k - 1) + if s[k - 1] == '\n' then 1 else 0
  }

  /** A line number computed on the stripped text is that of the source. */
  lemma {:induction false} LinesAgree(s: string, t: string, k: nat)
    requires Blanked(s, t) && k <= |s|
    ensures LineOf(t, k) == LineOf(s, k)
  {
    if k > 0 {
      LinesAgree(s, t, k - 1);
    }
  }

  lemma ReportedLinesAreTheSources(source: string, k: nat)
    requires k <= |source|
    ensures |StripNonCode(source)| == |source| && LineOf(StripNonCode(source), k) == LineOf(source, k)
  {
    StripOnlyBlanks(source, ' ', 0);
    LinesAgree(source, StripNonCode(source), k);
  }

  // ---- calls to a redactor ------------------------------------------------------------------------------------

  predicate CallAt(s: string, name: string, k: int) {
    0 <= k && k + |name| + 1 <= |s| && s[k..k + |name|] == name && s[k + |name|] == '('
  }

  /** The first call of `name` from `from` on, or -1. */
  function FindCall(s: string, name: string, from: nat): (k: int)
    ensures k == -1 || (k >= from && CallAt(s, name, k))
    ensures forall j :: from <= j && (k == -1 || j < k) ==> !CallAt(s, name, j)
    decreases |s| - from
  {
    if from >= |s| then -1 else if CallAt(s, name, from) then from else FindCall(s, name, from + 1)
  }

  /** Past the parenthesis that balances the first one, or at the end. */
  function Balanced(s: string, k: nat, depth: int): (end: nat)
    requires k <= |s|
    ensures k <= end <= |s| && (k < |s| ==> k < end)
    decreases |s| - k
  {
    if k == |s| then k
    else if s[k] == '(' then Balanced(s, k + 1, depth + 1)
    else if s[k] == ')' then if depth == 1 then k + 1 else Balanced(s, k + 1, depth - 1)
    else Balanced(s, k + 1, depth)
  }

  /** Where a call that starts at `k` ends. */
  function CallEnd(s: string, name: string, k: nat): (end: nat)
    requires CallAt(s, name, k)
    ensures k < end <= |s|
  {
    Balanced(s, k + |name|, 0)
  }

  function BlankSpan(s: string, from: nat, to: nat): (t: string)
    requires from <= to <= |s|
    ensures |t| == |s|
  {
    s[..from] + Blank(s[from..to]) + s[to..]
  }

  /** Blank every call of one redactor, arguments included, from `from` on. */
  function BlankCalls(s: string, name: string, from: nat): string
    decreases |s| - from
  {
    var start := FindCall(s, name, from);
    if start < 0 then s
    else
      var end := CallEnd(s, name, start);
      BlankCalls(BlankSpan(s, start, end), name, end)
  }

  predicate NameLike(name: string) { name != "" && forall k :: 0 <= k < |name| ==> name[k] != ' ' && name[k] != '\n' && name[k] != '(' }

  predicate NoCallBefore(s: string, name: string, to: nat) { forall k :: 0 <= k < to ==> !CallAt(s, name, k) }

  lemma SpanShape(s: string, start: nat, end: nat)
    requires start <= end <= |s|
    ensures var t := BlankSpan(s, start, end);
            forall j :: 0 <= j < |s| ==> t[j] == if start <= j < end then BlankChar(s[j]) else s[j]
  {
  }

  /** A call that blanking leaves standing stood there before. */
  lemma CallWasThere(s: string, t: string, name: string, k: nat)
    requires NameLike(name) && Blanked(s, t) && CallAt(t, name, k)
    ensures CallAt(s, name, k) && t[k] != ' ' && t[k] != '\n'
  {
    var part := t[k..k + |name|];
    assert part[0] == name[0];
    forall j | 0 <= j < |name|
      ensures s[k..k + |name|][j] == part[j]
    {
      assert part[j] == name[j];
    }
    assert s[k..k + |name|] == part;
  }

  lemma SpanBlanks(s: string, name: string, start: nat, end: nat)
    requires NameLike(name) && NoCallBefore(s, name, start) && start < end <= |s|
    ensures Blanked(s, BlankSpan(s, start, end)) && NoCallBefore(BlankSpan(s, start, end), name, end)
  {
    var t := BlankSpan(s, start, end);
    SpanShape(s, start, end);
    forall k | 0 <= k < end && CallAt(t, name, k)
      ensures false
    {
      CallWasThere(s, t, name, k);
    }
  }

  lemma CallsStep(s: string, name: string, from: nat) returns (end: nat, t: string)
    requires NameLike(name) && NoCallBefore(s, name, from) && FindCall(s, name, from) >= 0
    ensures |t| == |s| && from < end <= |s| && BlankCalls(s, name, from) == BlankCalls(t, name, end)
    ensures Blanked(s, t) && NoCallBefore(t, name, end)
  {
    var start := FindCall(s, name, from);
    end := CallEnd(s, name, start);
    t := BlankSpan(s, start, end);
    SpanBlanks(s, name, start, end);
  }

  lemma NoCallLeft(s: string, name: string, from: nat)
    requires NoCallBefore(s, name, from) && FindCall(s, name, from) == -1
    ensures FindCall(s, name, 0) == -1
  {
    assert forall k :: 0 <= k ==> !CallAt(s, name, k);
  }

  /** Nothing but blanks is written, and no call of the redactor is left to be searched. */
  lemma {:induction false} CallsAreBlanked(s: string, name: string, from: nat)
    requires NameLike(name) && NoCallBefore(s, name, from)
    ensures Blanked(s, BlankCalls(s, name, from)) && FindCall(BlankCalls(s, name, from), name, 0) == -1
    decreases |s| - from
  {
    if FindCall(s, name, from) >= 0 {
      var end, t := CallsStep(s, name, from);
      CallsAreBlanked(t, name, end);
      BlankedTwice(s, t, BlankCalls(t, name, end));
    } else {
      NoCallLeft(s, name, from);
    }
  }

  lemma BlankedTwice(a: string, b: string, c: string)
    requires Blanked(a, b) && Blanked(b, c)
    ensures Blanked(a, c)
  {
  }

  function Sign(c: char): int { if c == '(' then 1 else if c == ')' then -1 else 0 }

  /** Opening less closing parentheses between two positions. */
  function Level(s: string, from: nat, end: nat): int
    requires from <= end <= |s|
  {
    if end == from then 0 else Level(s, from, end - 1) + Sign(s[end - 1])
  }

  lemma {:induction false} LevelFromFront(s: string, from: nat, end: nat)
    requires from < end <= |s|
    ensures Level(s, from, end) == Sign(s[from]) + Level(s, from + 1, end)
  {
    if from + 1 == end {
      assert Level(s, from, from) == 0 == Level(s, end, end);
    } else {
      LevelFromFront(s, from, end - 1);
    }
  }

  /** The span of a call: open from its first parenthesis on, and closed exactly at its end, if the text closes it. */
  ghost predicate Spans(s: string, k: nat, depth: int, end: nat)
    requires k <= end <= |s|
  {
    && (forall j :: k < j < end ==> depth + Level(s, k, j) > 0)
    && (depth + Level(s, k, end) == 0 || (end == |s| && depth + Level(s, k, end) > 0))
  }

  lemma {:induction false} BalancedSpans(s: string, k: nat, depth: int)
    requires k <= |s| && (depth > 0 || (depth == 0 && k < |s| && s[k] == '('))
    ensures Spans(s, k, depth, Balanced(s, k, depth))
    decreases |s| - k
  {
    var end := Balanced(s, k, depth);
    if k < |s| {
      var after := depth + Sign(s[k]);
      if after > 0 {
        BalancedSpans(s, k + 1, after);
        assert end == Balanced(s, k + 1, after);
      } else {
        assert end == k + 1;
      }
      forall j | k < j <= end
        ensures depth + Level(s, k, j) == after + Level(s, k + 1, j)
      {
        LevelFromFront(s, k, j);
      }
    }
  }

  lemma CallSpans(s: string, name: string, k: nat)
    requires CallAt(s, name, k)
    ensures Spans(s, k + |name|, 0, CallEnd(s, name, k))
  {
    BalancedSpans(s, k + |name|, 0);
  }

  const REDACTORS := ["redactForLog", "redactUrls"]

  function WithoutRedactors(text: string): string {
    BlankCalls(BlankCalls(text, REDACTORS[0], 0), REDACTORS[1], 0)
  }

  method EndOfCall(s: string, name: string, start: nat) returns (end: nat)
    requires CallAt(s, name, start)
    ensures end == CallEnd(s, name, start)
  {
    var depth := 0;
    end := start + |name|;
    while end < |s|
      invariant end <= |s| && Balanced(s, end, depth) == CallEnd(s, name, start)
    {
      if s[end] == '(' {
        depth := depth + 1;
      } else if s[end] == ')' {
        depth := depth - 1;
        if depth == 0 {
          end := end + 1;
          break;
        }
      }
      end := end + 1;
    }
  }

  method BlankRedactorCalls(text: string) returns (result: string)
    ensures result == WithoutRedactors(text)
  {
    result := text;
    for index := 0 to |REDACTORS|
      invariant index == 0 ==> result == text
      invariant index == 1 ==> result == BlankCalls(text, REDACTORS[0], 0)
      invariant index == 2 ==> result == WithoutRedactors(text)
    {
      result := BlankOneRedactor(result, REDACTORS[index]);
    }
  }

  method BlankOneRedactor(text: string, name: string) returns (result: string)
    ensures result == BlankCalls(text, name, 0)
  {
    result := text;
    var from := 0;
    while true
      invariant BlankCalls(result, name, from) == BlankCalls(text, name, 0) && |result| == |text|
      decreases |text| - from
    {
      var start := FindCall(result, name, from);
      if start == -1 {
        break;
      }
      var end := EndOfCall(result, name, start);
      result := BlankSpan(result, start, end);
      from := end;
    }
  }

  lemma RedactorsAreNames()
    ensures NameLike(REDACTORS[0]) && NameLike(REDACTORS[1])
  {
  }

  /** The arguments of a call at `open`, with the sanctioned exits blanked, still stand where the source has them. */
  lemma FindingsPointAtTheSource(source: string, open: nat, end: nat, k: nat)
    requires open < end <= |source|
    requires var code := StripNonCode(source); |code| == |source| && k < end - (open + 1)
    ensures var code := StripNonCode(source);
            var arguments := WithoutRedactors(code[open + 1..end]);
            && |arguments| == end - (open + 1)
            && (arguments[k] != ' ' ==> arguments[k] == source[open + 1 + k])
            && LineOf(code, open + 1 + k) == LineOf(source, open + 1 + k)
  {
    var code := StripNonCode(source);
    var cut := code[open + 1..end];
    StripOnlyBlanks(source, ' ', 0);
    RedactorsAreNames();
    CallsAreBlanked(cut, REDACTORS[0], 0);
    CallsAreBlanked(BlankCalls(cut, REDACTORS[0], 0), REDACTORS[1], 0);
    LinesAgree(source, code, open + 1 + k);
    assert cut[k] == code[open + 1 + k];
  }

  // ---- the stripper, in place ---------------------------------------------------------------------------------

  /** Blank a range of the array, clamped to its length. */
  method BlankRange(out: array<char>, from: nat, to: nat)
    modifies out
    ensures forall k :: 0 <= k < out.Length ==> out[k] == if from <= k < to then BlankChar(old(out[k])) else old(out[k])
  {
    var i := from;
    while i < to && i < out.Length
      invariant from <= i
      invariant forall k :: 0 <= k < out.Length ==>
        out[k] == if from <= k < i && k < to then BlankChar(old(out[k])) else old(out[k])
    {
      if out[i] != '\n' {
        out[i] := ' ';
      }
      i := i + 1;
    }
  }

  function Least(a: nat, b: nat): nat { if a < b then a else b }

  lemma DropMore(source: string, j: nat, n: nat)
    requires j < |source| && n <= |source| - j
    ensures source[j..][n..] == source[j + n..] == Drop(source, j + n)
  {
  }

  /** What one round of the string loop takes, or nothing where it stops. */
  function StringRound(b: string, quote: char): nat {
    if b == "" || b[0] == quote || b[0] == '\n' then 0
    else if b[0] == '\\' then if |b| == 1 || b[1] == '\n' then 1 else 2
    else 1
  }

  lemma StringStep(source: string, j: nat, quote: char, rest: string) returns (after: string)
    requires j < |source| && rest == Drop(source, j)
    ensures StringRound(rest, quote) <= |source| - j && after == Drop(source, j + StringRound(rest, quote))
    ensures StringStop(rest, quote) == StringRound(rest, quote) + StringStop(after, quote)
    ensures StringRound(rest, quote) == 0 ==> StringStop(rest, quote) == 0
  {
    after := rest[StringRound(rest, quote)..];
    DropMore(source, j, StringRound(rest, quote));
  }

  method StringEnd(source: string, from: nat, quote: char) returns (j: nat)
    requires from <= |source|
    ensures from <= j && Least(j, |source|) == from + StringStop(source[from..], quote)
  {
    j := from;
    ghost var rest := source[from..];
    ghost var stop := from + StringStop(rest, quote);
    while j < |source| && source[j] != quote
      invariant from <= j && rest == Drop(source, j)
      invariant Least(j, |source|) + StringStop(rest, quote) == stop
    {
      ghost var n := j + StringRound(rest, quote);
      ghost var after := StringStep(source, j, quote, rest);
      if source[j] == '\\' {
        j := j + 1;
      }
      if j < |source| && source[j] == '\n' {
        break;
      }
      j := j + 1;
      assert Least(j, |source|) == n;
      rest := after;
    }
  }

  function TemplateRound(b: string): nat {
    if b == "" || b[0] == '`' || At(b, '$', '{') then 0 else if b[0] == '\\' && |b| > 1 then 2 else 1
  }

  lemma TemplateStep(source: string, j: nat, rest: string) returns (after: string)
    requires j < |source| && rest == Drop(source, j)
    ensures TemplateRound(rest) <= |source| - j && after == Drop(source, j + TemplateRound(rest))
    ensures TemplateStop(rest) == TemplateRound(rest) + TemplateStop(after)
    ensures TemplateRound(rest) == 0 ==> TemplateStop(rest) == 0
  {
    after := rest[TemplateRound(rest)..];
    DropMore(source, j, TemplateRound(rest));
  }

  method TemplateEnd(source: string, from: nat) returns (j: nat)
    requires from <= |source|
    ensures from <= j && Least(j, |source|) == from + TemplateStop(source[from..])
  {
    j := from;
    ghost var rest := source[from..];
    ghost var stop := from + TemplateStop(rest);
    while j < |source|
      invariant from <= j && rest == Drop(source, j)
      invariant Least(j, |source|) + TemplateStop(rest) == stop
    {
      ghost var after := TemplateStep(source, j, rest);
      if source[j] == '\\' {
        rest := after;
        j := j + 2;
        continue;
      }
      if source[j] == '`' {
        break;
      }
      if source[j] == '$' && j + 1 < |source| && source[j + 1] == '{' {
        break;
      }
      rest := after;
      j := j + 1;
    }
  }

  function RegexRound(b: string, inClass: bool): nat {
    if b == "" then 0
    else if b[0] == '\\' then if |b| > 1 then 2 else 1
    else if b[0] == '\n' || (b[0] == '/' && !inClass) then 0
    else 1
  }

  lemma RegexAdvance(source: string, j: nat, rest: string, inClass: bool) returns (after: string)
    requires j < |source| && rest == Drop(source, j)
    ensures RegexRound(rest, inClass) <= |source| - j && after == Drop(source, j + RegexRound(rest, inClass))
    ensures RegexStop(rest, inClass) == RegexRound(rest, inClass) + RegexStop(after, InClassAfter(rest[0], inClass))
    ensures RegexRound(rest, inClass) == 0 ==> RegexStop(rest, inClass) == 0
  {
    after := rest[RegexRound(rest, inClass)..];
    DropMore(source, j, RegexRound(rest, inClass));
  }

  method RegexEnd(source: string, from: nat) returns (j: nat)
    requires from <= |source|
    ensures from <= j && Least(j, |source|) == from + RegexStop(source[from..], false)
  {
    j := from;
    var inClass := false;
    ghost var rest := source[from..];
    ghost var stop := from + RegexStop(rest, false);
    while j < |source|
      invariant from <= j && rest == Drop(source, j)
      invariant Least(j, |source|) + RegexStop(rest, inClass) == stop
    {
      ghost var after := RegexAdvance(source, j, rest, inClass);
      var c := source[j];
      if c == '\\' {
        rest := after;
        j := j + 2;
        continue;
      }
      if c == '[' {
        inClass := true;
      } else if c == ']' {
        inClass := false;
      } else if c == '/' && !inClass {
        break;
      } else if c == '\n' {
        break;
      }
      rest := after;
      j := j + 1;
    }
  }

  /** One token has been read at `i`: the array holds its text, and reading goes on behind it. */
  ghost predicate Read(source: string, i: nat, done: string, lex: Lex, written: string, next: nat)
    requires i < |source|
  {
    var s := source[i..];
    && 0 < |lex.text| <= |s|
    && written == done + (lex.text + s[|lex.text|..])
    && Drop(source, next) == s[|lex.text|..]
  }

  /** The array before a token: what is done, and the source from there on. */
  ghost predicate Ready(source: string, i: nat, done: string, written: string) {
    i < |source| && |done| == i && written == done + source[i..]
  }

  lemma RangeRead(source: string, i: nat, done: string, was: string, from: nat, to: nat, written: string)
    requires Ready(source, i, done, was) && i <= from <= to && |written| == |was| == |source| && from <= |source|
    requires forall k :: 0 <= k < |was| ==> written[k] == if from <= k < to then BlankChar(was[k]) else was[k]
    ensures var a, b := from - i, Least(to, |source|) - i; var s := source[i..];
            written == done + (s[..a] + Blank(s[a..b]) + s[b..])
  {
    var a, b := from - i, Least(to, |source|) - i;
    var s := source[i..];
    assert forall k :: i <= k < |was| ==> was[k] == s[k - i];
    var t := s[..a] + Blank(s[a..b]) + s[b..];
    assert |t| == |s|;
    forall k | 0 <= k < |source|
      ensures written[k] == (done + t)[k]
    {
      if k >= i {
        assert (done + t)[k] == t[k - i];
      }
    }
  }

  method Comments(source: string, out: array<char>, i: nat, end: nat, ghost done: string, ghost lex: Lex)
    requires Ready(source, i, done, out[..]) && i < end <= |source|
    requires lex.text == Blank(source[i..][..end - i])
    modifies out
    ensures Read(source, i, done, lex, out[..], end)
  {
    ghost var was := out[..];
    BlankRange(out, i, end);
    RangeRead(source, i, done, was, i, end, out[..]);
    CommentRead(source, i, end, done, lex, out[..]);
  }

  lemma CommentRead(source: string, i: nat, end: nat, done: string, lex: Lex, written: string)
    requires i < end <= |source|
    requires var s, n := source[i..], end - i;
             lex.text == Blank(s[..n]) && written == done + (s[..0] + Blank(s[0..n]) + s[n..])
    ensures Read(source, i, done, lex, written, end)
  {
    var s, n := source[i..], end - i;
    DropMore(source, i, n);
    assert s[..0] + Blank(s[0..n]) == Blank(s[..n]);
  }

  /** The body of a literal that stops at `j`, and the character it stops at. */
  method Literal(source: string, out: array<char>, i: nat, j: nat, ghost done: string, ghost n: nat, ghost lex: Lex)
    requires Ready(source, i, done, out[..]) && i < j && n < |source| - i
    requires Least(j, |source|) == i + 1 + n && lex.text == Quoted(source[i..], n, lex.previous, lex.depth).text
    modifies out
    ensures Read(source, i, done, lex, out[..], j + 1)
  {
    ghost var was, s := out[..], source[i..];
    BlankRange(out, i + 1, j);
    RangeRead(source, i, done, was, i + 1, j, out[..]);
    DropMore(source, i, |lex.text|);
    ghost var close := Take(s[1 + n..], 1);
    assert s[1 + n..] == close + s[|lex.text|..];
    assert lex.text + s[|lex.text|..] == s[..1] + Blank(s[1..1 + n]) + s[1 + n..];
  }

  /** A template body behind its opening mark; whether its back quote closed it. */
  method TemplateBody(source: string, out: array<char>, i: nat, ghost done: string, ghost previous: char, ghost depth: nat)
    returns (next: nat, closed: bool)
    requires Ready(source, i, done, out[..]) && depth > 0
    modifies out
    ensures var lex := AfterBody([source[i]], source[i + 1..], previous, depth);
            Read(source, i, done, lex, out[..], next) && lex.depth == if closed then depth - 1 else depth
  {
    ghost var was, s, b := out[..], source[i..], source[i + 1..];
    ghost var n, lex := TemplateStop(b), AfterBody([source[i]], b, previous, depth);
    var j := TemplateEnd(source, i + 1);
    BlankRange(out, i + 1, j);
    RangeRead(source, i, done, was, i + 1, j, out[..]);
    BodyText([source[i]], b, previous, depth);
    next, closed := j, false;
    if j < |source| && source[j] == '`' {
      next, closed := j + 1, true;
    } else if j < |source| && source[j] == '$' {
      next := j + 2;
    }
    BodyRead(source, i, n, done, lex, out[..], next);
  }

  lemma BodyRead(source: string, i: nat, n: nat, done: string, lex: Lex, written: string, next: nat)
    requires i < |source| && i + 1 + n <= |source|
    requires var s, b := source[i..], source[i + 1..];
             && lex.text == [source[i]] + Blank(b[..n]) + BodyMark(b, n)
             && (n < |b| && b[n] != '`' ==> At(b[n..], '$', '{'))
             && written == done + (s[..1] + Blank(s[1..1 + n]) + s[1 + n..])
    requires var j := i + 1 + n; j < |source| ==> next == if source[j] == '`' then j + 1 else j + 2
    requires i + 1 + n == |source| ==> next >= |source|
    ensures Read(source, i, done, lex, written, next)
  {
    var s, b := source[i..], source[i + 1..];
    assert s == [source[i]] + b;
    BodyShape(source[i], b, n, s, lex.text);
    DropMore(source, i, |lex.text|);
  }

  /** The text of a template body and its mark, against the source behind its first character. */
  lemma BodyShape(c: char, b: string, n: nat, s: string, text: string)
    requires n <= |b| && s == [c] + b && text == [c] + Blank(b[..n]) + BodyMark(b, n)
    requires n < |b| && b[n] != '`' ==> At(b[n..], '$', '{')
    ensures |text| == 1 + n + |BodyMark(b, n)| <= |s|
    ensures s[..1] + Blank(s[1..1 + n]) + s[1 + n..] == text + s[|text|..]
  {
    var rest, mark := b[n..], BodyMark(b, n);
    assert s[1..1 + n] == b[..n] && s[1 + n..] == rest && s[..1] == [c];
    assert rest == mark + rest[|mark|..];
    assert s[|text|..] == rest[|mark|..];
  }

  lemma Onward(source: string, i: nat, done: string, lex: Lex, written: string, next: nat)
    requires i < |source| && |done| == i && Read(source, i, done, lex, written, next)
    ensures written == done + lex.text + Drop(source, next) && |done + lex.text| == Least(next, |source|)
  {
  }

  lemma StripOnward(done: string, s: string, previous: char, depth: nat, lex: Lex, rest: string)
    requires s != "" && lex == Next(s, previous, depth) && |lex.text| <= |s| && rest == s[|lex.text|..]
    ensures done + lex.text + Strip(rest, lex.previous, lex.depth) == done + Strip(s, previous, depth)
  {
    StripStep(s, previous, depth);
    assert done + lex.text + Strip(rest, lex.previous, lex.depth) == done + (lex.text + Strip(rest, lex.previous, lex.depth));
  }

  method StringLiteral(source: string, out: array<char>, start: nat, ghost last: char, ghost depth: nat, ghost done: string)
    returns (i: nat)
    requires Ready(source, start, done, out[..]) && (source[start] == '"' || source[start] == '\'')
    modifies out
    ensures Read(source, start, done, Next(source[start..], last, depth), out[..], i)
  {
    var j := StringEnd(source, start + 1, source[start]);
    ghost var s := source[start..];
    DropMore(source, start, 1);
    Literal(source, out, start, j, done, StringStop(s[1..], s[0]), Next(s, last, depth));
    i := j + 1;
  }

  method RegexLiteral(source: string, out: array<char>, start: nat, ghost last: char, ghost depth: nat, ghost done: string)
    returns (i: nat)
    requires Ready(source, start, done, out[..]) && RegexHere(source[start..], last)
    modifies out
    ensures Read(source, start, done, Next(source[start..], last, depth), out[..], i)
  {
    var j := RegexEnd(source, start + 1);
    ghost var s := source[start..];
    DropMore(source, start, 1);
    Literal(source, out, start, j, done, RegexStop(s[1..], false), Next(s, last, depth));
    i := j + 1;
  }

  /** One round of the loop: the position, the template stack and the last significant character after it. */
  method Token(source: string, out: array<char>, start: nat, stack: seq<nat>, last: char, ghost done: string)
    returns (i: nat, templateStack: seq<nat>, previous: char)
    requires Ready(source, start, done, out[..])
    modifies out
    ensures var lex := Next(source[start..], last, |stack|);
            && Read(source, start, done, lex, out[..], i)
            && previous == lex.previous && |templateStack| == lex.depth
  {
    i, templateStack, previous := start, stack, last;
    var c := source[i];
    ghost var s, depth := source[i..], |stack|;
    ghost var lex := Next(s, last, depth);
    DropMore(source, i, 1);
    if c == '/' && i + 1 < |source| && source[i + 1] == '/' {
      var end := i + LineStop(source[i..]);
      Comments(source, out, i, end, done, lex);
      i := end;
    } else if c == '/' && i + 1 < |source| && source[i + 1] == '*' {
      DropMore(source, i, 2);
      var end := i + 2 + CloseStop(source[i + 2..]);
      Comments(source, out, i, end, done, lex);
      i := end;
    } else if c == '"' || c == '\'' {
      i := StringLiteral(source, out, i, last, depth, done);
      previous := c;
    } else if c == '`' {
      templateStack := templateStack + [0];
      previous := '`';
      var next, closed := TemplateBody(source, out, i, done, '`', depth + 1);
      i := next;
      if closed {
        templateStack := templateStack[..|templateStack| - 1];
      }
    } else if c == '}' && |templateStack| > 0 {
      var next, closed := TemplateBody(source, out, i, done, previous, depth);
      i := next;
      if closed {
        templateStack := templateStack[..|templateStack| - 1];
      }
    } else if c == '/' && StartsRegex(previous) {
      i := RegexLiteral(source, out, i, last, depth, done);
      previous := '/';
    } else {
      if !IsSpace(c) {
        previous := c;
      }
      assert s == [c] + s[1..];
      i := i + 1;
    }
  }

  /** The loop over one array of characters, with the template stack and the last significant character. */
  method StripInPlace(source: string) returns (out: array<char>)
    ensures fresh(out) && out[..] == StripNonCode(source)
  {
    out := new char[|source|](k requires 0 <= k < |source| => source[k]);
    var templateStack: seq<nat> := [];
    var i: nat := 0;
    var previous := ' ';
    ghost var done, rest := "", source;
    while i < |source|
      invariant fresh(out) && out.Length == |source|
      invariant rest == Drop(source, i) && out[..] == done + rest && |done| == Least(i, |source|)
      invariant done + Strip(rest, previous, |templateStack|) == StripNonCode(source)
    {
      ghost var lex, start := Next(rest, previous, |templateStack|), i;
      ghost var s, last, depth := rest, previous, |templateStack|;
      i, templateStack, previous := Token(source, out, i, templateStack, previous, done);
      Onward(source, start, done, lex, out[..], i);
      rest := Drop(source, i);
      StripOnward(done, s, last, depth, lex, rest);
      done := done + lex.text;
    }
  }
}
