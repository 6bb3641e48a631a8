/**
 * What is left of a call's arguments to be searched, and the line that is quoted for a finding:
 * `blankRedactorCalls` and the report of `findLogLeaks` in scripts/check-logging.ts.
 */
module LexerFinds {
  import opened JsText
  import opened Lexer

  // ---- what a redactor hides -------------------------------------------------------------------------------

  /** `k` is within a call of `name`: from its name to the parenthesis that closes it. */
  ghost predicate InCall(s: string, name: string, k: nat) {
    exists j: nat :: Call(s, name, j) && j <= k < CallEnd(s, name, j)
  }

  ghost predicate Call(s: string, name: string, j: nat) {
    j + |name| < |s| && s[j..j + |name|] == name && s[j + |name|] == '(' && CallAt(s, name, j)
  }

  lemma {:induction false} BalancedSame(s: string, t: string, k: nat, depth: int)
    requires |s| == |t| && k <= |s| && forall j :: k <= j < |s| ==> s[j] == t[j]
    ensures Balanced(s, k, depth) == Balanced(t, k, depth)
    decreases |s| - k
  {
    if k < |s| {
      BalancedSame(s, t, k + 1, depth + 1);
      BalancedSame(s, t, k + 1, depth - 1);
      BalancedSame(s, t, k + 1, depth);
    }
  }

  /** What is deeper is closed no sooner. */
  lemma {:induction false} BalancedOrder(s: string, k: nat, a: int, b: int)
    requires k <= |s| && 0 < a <= b
    ensures Balanced(s, k, a) <= Balanced(s, k, b)
    decreases |s| - k
  {
    if k < |s| && a < b {
      if s[k] == '(' {
        BalancedOrder(s, k + 1, a + 1, b + 1);
      } else if s[k] != ')' {
        BalancedOrder(s, k + 1, a, b);
      } else if a > 1 {
        BalancedOrder(s, k + 1, a - 1, b - 1);
      }
    }
  }

  /** Reading on from within a call, it is still open. */
  lemma {:induction false} StillOpen(s: string, k: nat, depth: int, at: nat) returns (left: int)
    requires k <= |s| && k <= at < Balanced(s, k, depth) && depth > 0
    ensures left > 0 && Balanced(s, k, depth) == Balanced(s, at, left)
    decreases at - k
  {
    if k == at {
      left := depth;
    } else {
      left := StillOpen(s, k + 1, depth + Sign(s[k]), at);
    }
  }

  /** A call that starts within another one ends within it. */
  lemma NestedEnds(s: string, name: string, start: nat, j: nat)
    requires NameLike(name) && ')' !in name && CallAt(s, name, start) && CallAt(s, name, j) && start < j < CallEnd(s, name, start)
    ensures CallEnd(s, name, j) <= CallEnd(s, name, start)
  {
    var open, inner := start + |name|, j + |name|;
    assert s[open] == '(' && s[inner] == '(';
    var end := Balanced(s, open + 1, 1);
    assert CallEnd(s, name, start) == end;
    ReachesParenthesis(s, name, start, j);
    var left := StillOpen(s, open + 1, 1, inner);
    BalancedOrder(s, inner + 1, 1, left + 1);
  }

  /** The name of a nested call stands whole within the outer one, behind its opening parenthesis. */
  lemma ReachesParenthesis(s: string, name: string, start: nat, j: nat)
    requires NameLike(name) && ')' !in name && CallAt(s, name, start) && CallAt(s, name, j) && start < j < CallEnd(s, name, start)
    ensures start + |name| < j + |name| < CallEnd(s, name, start)
  {
    EndsInClose(s, start + |name|, 0);
    forall k | j <= k < j + |name|
      ensures s[k] != ')'
    {
      assert s[k] == s[j..j + |name|][k - j] == name[k - j];
      assert name[k - j] in name;
    }
  }

  lemma {:induction false} EndsInClose(s: string, k: nat, depth: int)
    requires k < |s|
    ensures Balanced(s, k, depth) == |s| || s[Balanced(s, k, depth) - 1] == ')'
    decreases |s| - k
  {
    if k + 1 < |s| {
      EndsInClose(s, k + 1, depth + 1);
      EndsInClose(s, k + 1, depth - 1);
      EndsInClose(s, k + 1, depth);
    }
  }

  /** A call behind a blanked span stands there before and after, and reaches as far. */
  lemma CallBehind(s: string, t: string, name: string, end: nat, j: nat)
    requires |s| == |t| && end <= j && (forall i :: end <= i < |s| ==> s[i] == t[i])
    ensures Call(s, name, j) <==> Call(t, name, j)
    ensures Call(s, name, j) ==> CallEnd(s, name, j) == CallEnd(t, name, j)
  {
    if j + |name| < |s| {
      assert s[j..j + |name|] == t[j..j + |name|];
      BalancedSame(s, t, j + |name|, 0);
    }
  }

  lemma InCallBefore(s: string, t: string, name: string, start: nat, end: nat, k: nat)
    requires NameLike(name) && ')' !in name && NoCallBefore(s, name, start) && CallAt(s, name, start) && end == CallEnd(s, name, start)
    requires t == BlankSpan(s, start, end) && k < |s| && InCall(s, name, k)
    ensures start <= k < end || InCall(t, name, k)
  {
    SpanShape(s, start, end);
    var j: nat :| Call(s, name, j) && j <= k < CallEnd(s, name, j);
    if start < j < end {
      NestedEnds(s, name, start, j);
    } else if j >= end {
      CallBehind(s, t, name, end, j);
    }
  }

  lemma InCallAfter(s: string, t: string, name: string, start: nat, end: nat, k: nat)
    requires NameLike(name) && NoCallBefore(s, name, start) && CallAt(s, name, start) && end == CallEnd(s, name, start)
    requires t == BlankSpan(s, start, end) && k < |s| && (start <= k < end || InCall(t, name, k))
    ensures InCall(s, name, k)
  {
    SpanShape(s, start, end);
    SpanBlanks(s, name, start, end);
    if start <= k < end {
      assert Call(s, name, start);
    } else {
      var j: nat :| Call(t, name, j) && j <= k < CallEnd(t, name, j);
      CallBehind(s, t, name, end, j);
    }
  }

  /** Blanking the calls of a redactor blanks each character within one, and leaves every other as it is. */
  lemma {:induction false} BlankedIffInCall(s: string, name: string, from: nat, k: nat)
    requires NameLike(name) && ')' !in name && NoCallBefore(s, name, from) && k < |s|
    ensures |BlankCalls(s, name, from)| == |s|
    ensures BlankCalls(s, name, from)[k] == if InCall(s, name, k) then BlankChar(s[k]) else s[k]
    decreases |s| - from
  {
    var start := FindCall(s, name, from);
    if start < 0 {
      assert forall j: nat :: !Call(s, name, j);
    } else {
      var end := CallEnd(s, name, start);
      var t := BlankSpan(s, start, end);
      assert NoCallBefore(s, name, start);
      SpanShape(s, start, end);
      SpanBlanks(s, name, start, end);
      if InCall(s, name, k) {
        InCallBefore(s, t, name, start, end, k);
      } else if start <= k < end || InCall(t, name, k) {
        InCallAfter(s, t, name, start, end, k);
      }
      BlankedIffInCall(t, name, end, k);
    }
  }

  /**
   * What is left of an argument list to be searched: all of it but the calls of `redactForLog`, and then those of
   * `redactUrls`, names and arguments, in which only line feeds are left.
   */
  lemma HiddenIffRedacted(text: string, k: nat)
    requires k < |text|
    ensures var once := BlankCalls(text, "redactForLog", 0);
            && |once| == |text| == |WithoutRedactors(text)|
            && WithoutRedactors(text)[k]
               == if InCall(text, "redactForLog", k) || InCall(once, "redactUrls", k) then BlankChar(text[k]) else text[k]
  {
    var once := BlankCalls(text, "redactForLog", 0);
    BlankedIffInCall(text, "redactForLog", 0, k);
    BlankedIffInCall(once, "redactUrls", 0, k);
  }

  // ---- the line that is quoted -----------------------------------------------------------------------------

  /** The source cut at its line feeds. */
  function Lines(s: string): seq<string> {
    if LineStop(s) == |s| then [s] else [s[..LineStop(s)]] + Lines(s[LineStop(s) + 1..])
  }

  lemma {:induction false} LineBehind(s: string, feed: nat, k: nat)
    requires feed < k <= |s|
    ensures LineOf(s, k) == LineOf(s, feed + 1) - 1 + LineOf(s[feed + 1..], k - (feed + 1))
  {
    if k > feed + 1 {
      LineBehind(s, feed, k - 1);
    }
  }

  lemma {:induction false} FirstLine(s: string, k: nat)
    requires k <= LineStop(s)
    ensures LineOf(s, k) == 1
  {
    if k > 0 {
      FirstLine(s, k - 1);
      LineStops(s);
      assert s[..LineStop(s)][k - 1] == s[k - 1];
    }
  }

  /** `line` is a whole line of `s`, and `k` stands on it. */
  predicate StandsOn(s: string, line: string, start: nat, k: nat) {
    start <= k <= start + |line| <= |s| && s[start..start + |line|] == line && '\n' !in line
  }

  lemma StandsLater(s: string, line: string, start: nat, k: nat, n: nat)
    requires n <= k <= |s| && StandsOn(s[n..], line, start, k - n)
    ensures StandsOn(s, line, n + start, k)
  {
    assert s[n..][start..start + |line|] == s[n + start..n + start + |line|];
  }

  lemma LaterLine(s: string, n: nat, line: nat)
    requires n == LineStop(s) < |s| && 2 <= line <= 1 + |Lines(s[n + 1..])|
    ensures line <= |Lines(s)| && Lines(s)[line - 1] == Lines(s[n + 1..])[line - 2]
  {
  }

  lemma OneMoreLine(s: string, n: nat, k: nat, rest: string)
    requires n == LineStop(s) < k <= |s| && rest == s[n + 1..]
    ensures LineOf(s, k) == 1 + LineOf(rest, k - (n + 1))
  {
    LineStops(s);
    FirstLine(s, n);
    LineBehind(s, n, k);
  }

  lemma QuotedLater(s: string, n: nat, k: nat, rest: string, line: nat, inner: nat)
    requires n == LineStop(s) < k <= |s| && rest == s[n + 1..] && line == LineOf(rest, k - (n + 1)) && 1 <= line <= |Lines(rest)|
    requires StandsOn(rest, Lines(rest)[line - 1], inner, k - (n + 1))
    ensures LineOf(s, k) == line + 1 <= |Lines(s)| && StandsOn(s, Lines(s)[line], n + 1 + inner, k)
  {
    OneMoreLine(s, n, k, rest);
    LaterLine(s, n, line + 1);
    StandsLater(s, Lines(rest)[line - 1], inner, k, n + 1);
  }

  /** The line quoted for a position of the source is the one it stands on. */
  lemma {:induction false} QuotedLineIsItsOwn(s: string, k: nat) returns (start: nat)
    requires k <= |s|
    ensures 1 <= LineOf(s, k) <= |Lines(s)|
    ensures StandsOn(s, Lines(s)[LineOf(s, k) - 1], start, k)
    decreases |s|
  {
    var n := LineStop(s);
    LineStops(s);
    if k <= n {
      FirstLine(s, k);
      start := 0;
      assert n == |s| ==> s[..n] == s;
    } else {
      var inner := QuotedLineIsItsOwn(s[n + 1..], k - (n + 1));
      start := n + 1 + inner;
      QuotedLater(s, n, k, s[n + 1..], LineOf(s[n + 1..], k - (n + 1)), inner);
    }
  }
}
