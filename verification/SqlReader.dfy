/**
 * The data-only SQL reader of scripts/arcade-guardians-report.ts: `statements` splits a dump,
 * `literals` reads the rows of an INSERT. No text of a dump is ever executed.
 */
module SqlReader {
  import opened Wrappers
  import opened JsText

  datatype Code = InvalidSql | InvalidSize | DataOnlyRequired | UnexpectedTable | InvalidColumns
  datatype Parsed<+T> = Fine(value: T) | Bad(code: Code)

  datatype Value = Null | Int(n: int) | Text(s: string)

  const MAX_SAFE: int := 9_007_199_254_740_991
  const MAX_IMPORT_ROWS: nat := 500_000

  function Prepend<T>(rows: seq<T>, r: Parsed<seq<T>>): Parsed<seq<T>> {
    if r.Bad? then r else Fine(rows + r.value)
  }

  lemma PrependNothing<T>(r: Parsed<seq<T>>)
    ensures Prepend([], r) == r
  {
    if r.Fine? {
      assert [] + r.value == r.value;
    }
  }

  lemma PrependTwice<T>(a: seq<T>, b: seq<T>, r: Parsed<seq<T>>)
    ensures Prepend(a, Prepend(b, r)) == Prepend(a + b, r)
  {
    if r.Fine? {
      assert a + (b + r.value) == a + b + r.value;
    }
  }

  // ---- characters ------------------------------------------------------------------------------

  predicate AllSpace(s: string) { forall k :: 0 <= k < |s| ==> IsSpace(s[k]) }

  predicate IsDigit(c: char) { '0' <= c <= '9' }

  function Upper(c: char): char { if 'a' <= c <= 'z' then c - 'a' + 'A' else c }

  /** Whether `s` begins with an upper-case word, whatever the case it is written in. */
  predicate Begins(s: string, word: string) {
    word == "" || (s != "" && Upper(s[0]) == word[0] && Begins(s[1..], word[1..]))
  }

  function SkipSpace(s: string): (r: string)
    ensures |r| <= |s|
  {
    if s != "" && IsSpace(s[0]) then SkipSpace(s[1..]) else s
  }

  function DropRight(s: string): string {
    if s != "" && IsSpace(s[|s| - 1]) then DropRight(s[..|s| - 1]) else s
  }

  function Trim(s: string): string { DropRight(SkipSpace(s)) }

  // ---- statements ---------------------------------------------------------------------------------

  function LineEnd(s: string): (n: nat)
    ensures n <= |s|
  {
    if s == "" || s[0] == '\n' then 0 else 1 + LineEnd(s[1..])
  }

  function AfterLine(s: string): string {
    if LineEnd(s) == |s| then "" else s[LineEnd(s) + 1..]
  }

  function CloseAt(s: string): (n: Option<nat>)
    ensures n.Some? ==> n.value + 2 <= |s|
  {
    if |s| < 2 then None
    else if s[0] == '*' && s[1] == '/' then Some(0)
    else match CloseAt(s[1..])
      case None => None
      case Some(n) => Some(n + 1)
  }

  predicate At(s: string, a: char, b: char) { |s| > 1 && s[0] == a && s[1] == b }

  /** What is left of the dump, with the statement read so far and whether a quote is open. */
  function Split(s: string, value: string, quoted: bool): Parsed<seq<string>>
    decreases |s|
  {
    if s == "" then if quoted || Trim(value) != "" then Bad(InvalidSql) else Fine([])
    else if s[0] == '\'' then
      if quoted && At(s, '\'', '\'') then Split(s[2..], value + "''", true) else Split(s[1..], value + "'", !quoted)
    else if !quoted && At(s, '-', '-') then Split(AfterLine(s), value + " ", false)
    else if !quoted && At(s, '/', '*') then
      match CloseAt(s[2..])
      case None => Bad(InvalidSql)
      case Some(n) => Split(s[n + 4..], value + " ", false)
    else if !quoted && s[0] == ';' then
      var rest := Split(s[1..], "", false);
      if Trim(value) == "" then rest else Prepend([Trim(value)], rest)
    else Split(s[1..], value + [s[0]], quoted)
  }

  /** `whole` is what the statements read so far, the one being read and the rest of the dump come to. */
  ghost predicate Splitting(whole: Parsed<seq<string>>, rows: seq<string>, rest: string, value: string, quoted: bool) {
    whole == Prepend(rows, Split(rest, value, quoted))
  }

  lemma SplitQuote(whole: Parsed<seq<string>>, rows: seq<string>, s: string, value: string, quoted: bool)
    requires s != "" && s[0] == '\'' && Splitting(whole, rows, s, value, quoted)
    ensures quoted && At(s, '\'', '\'') ==> Splitting(whole, rows, s[2..], value + "'" + "'", true)
    ensures !(quoted && At(s, '\'', '\'')) ==> Splitting(whole, rows, s[1..], value + "'", !quoted)
  {
    assert value + "'" + "'" == value + "''";
  }

  lemma SplitComment(whole: Parsed<seq<string>>, rows: seq<string>, s: string, value: string)
    requires Splitting(whole, rows, s, value, false)
    ensures At(s, '-', '-') ==> Splitting(whole, rows, AfterLine(s), value + " ", false)
    ensures At(s, '/', '*') && CloseAt(s[2..]).None? ==> whole == Bad(InvalidSql)
    ensures At(s, '/', '*') && CloseAt(s[2..]).Some? ==> Splitting(whole, rows, s[CloseAt(s[2..]).value + 4..], value + " ", false)
  {
  }

  lemma SplitEnd(whole: Parsed<seq<string>>, rows: seq<string>, s: string, value: string)
    requires s != "" && s[0] == ';' && Splitting(whole, rows, s, value, false)
    ensures Splitting(whole, if Trim(value) == "" then rows else rows + [Trim(value)], s[1..], "", false)
  {
    if Trim(value) != "" {
      PrependTwice(rows, [Trim(value)], Split(s[1..], "", false));
    }
  }

  lemma SplitOther(whole: Parsed<seq<string>>, rows: seq<string>, s: string, value: string, quoted: bool)
    requires s != "" && s[0] != '\'' && Splitting(whole, rows, s, value, quoted)
    requires quoted || (s[0] != ';' && !At(s, '-', '-') && !At(s, '/', '*'))
    ensures Splitting(whole, rows, s[1..], value + [s[0]], quoted)
  {
  }

  lemma SplitDone(whole: Parsed<seq<string>>, rows: seq<string>, value: string, quoted: bool)
    requires Splitting(whole, rows, "", value, quoted)
    ensures whole == if quoted || Trim(value) != "" then Bad(InvalidSql) else Fine(rows)
  {
    assert rows + [] == rows;
  }

  method SkipLine(sql: string, start: nat) returns (i: nat)
    requires start <= |sql|
    ensures start <= i <= |sql| && AfterLine(sql[start..]) == if i == |sql| then "" else sql[i + 1..]
  {
    i := start;
    while i < |sql| && sql[i] != '\n'
      invariant start <= i <= |sql| && LineEnd(sql[start..]) == i - start + LineEnd(sql[i..])
    {
      assert sql[i..][1..] == sql[i + 1..];
      i := i + 1;
    }
  }

  method Statements(sql: string) returns (r: Parsed<seq<string>>)
    ensures r == Split(sql, "", false)
  {
    var rows: seq<string>, value, quoted, i := [], "", false, 0;
    ghost var whole, s := Split(sql, "", false), sql;
    PrependNothing(whole);
    while i < |sql|
      invariant 0 <= i <= |sql| && s == sql[i..]
      invariant Splitting(whole, rows, s, value, quoted)
      decreases |sql| - i
    {
      var c := sql[i];
      if c == '\'' {
        SplitQuote(whole, rows, s, value, quoted);
        value := value + "'";
        if quoted && i + 1 < |sql| && sql[i + 1] == '\'' {
          s := s[2..];
          value, i := value + "'", i + 1;
        } else {
          s := s[1..];
          quoted := !quoted;
        }
      } else if !quoted && c == '-' && i + 1 < |sql| && sql[i + 1] == '-' {
        SplitComment(whole, rows, s, value);
        s := AfterLine(s);
        i := SkipLine(sql, i);
        value := value + " ";
        if i == |sql| {
          break;
        }
      } else if !quoted && c == '/' && i + 1 < |sql| && sql[i + 1] == '*' {
        SplitComment(whole, rows, s, value);
        assert s[2..] == sql[i + 2..];
        var end := CloseAt(sql[i + 2..]);
        if end.None? {
          return Bad(InvalidSql);
        }
        s := s[end.value + 4..];
        value, i := value + " ", i + end.value + 3;
      } else if !quoted && c == ';' {
        SplitEnd(whole, rows, s, value);
        s := s[1..];
        if Trim(value) != "" {
          rows := rows + [Trim(value)];
        }
        value := "";
      } else {
        SplitOther(whole, rows, s, value, quoted);
        s := s[1..];
        value := value + [c];
      }
      i := i + 1;
    }
    SplitDone(whole, rows, value, quoted);
    if quoted || Trim(value) != "" {
      return Bad(InvalidSql);
    }
    r := Fine(rows);
  }

  // ---- literals --------------------------------------------------------------------------------------

  /** A piece read off the front, and what follows it. */
  datatype Piece<T> = Piece(value: T, rest: string)

  function Before<T>(prefix: seq<T>, p: Option<Piece<seq<T>>>): Option<Piece<seq<T>>> {
    if p.None? then None else Some(Piece(prefix + p.value.value, p.value.rest))
  }

  lemma BeforeNothing<T>(p: Option<Piece<seq<T>>>)
    ensures Before([], p) == p
  {
    if p.Some? {
      assert [] + p.value.value == p.value.value;
    }
  }

  lemma BeforeTwice<T>(a: seq<T>, b: seq<T>, p: Option<Piece<seq<T>>>)
    ensures Before(a, Before(b, p)) == Before(a + b, p)
  {
    if p.Some? {
      assert a + (b + p.value.value) == a + b + p.value.value;
    }
  }

  function ParseText(s: string): Option<Piece<string>> {
    if s == "" then None
    else if At(s, '\'', '\'') then Before("'", ParseText(s[2..]))
    else if s[0] == '\'' then Some(Piece("", s[1..]))
    else Before([s[0]], ParseText(s[1..]))
  }

  /** The look-ahead of a bare literal: white space, then a comma or a closing parenthesis. */
  predicate Ends(s: string) {
    var t := SkipSpace(s);
    t != "" && (t[0] == ',' || t[0] == ')')
  }

  function DigitCount(s: string): (n: nat)
    ensures n <= |s|
    ensures forall k :: 0 <= k < n ==> IsDigit(s[k])
    ensures n < |s| ==> !IsDigit(s[n])
  {
    if s != "" && IsDigit(s[0]) then 1 + DigitCount(s[1..]) else 0
  }

  function DigitOf(c: char): nat
    requires IsDigit(c)
  {
    c as int - '0' as int
  }

  function NumberOf(digits: string): nat
    requires forall k :: 0 <= k < |digits| ==> IsDigit(digits[k])
  {
    if digits == "" then 0 else NumberOf(digits[..|digits| - 1]) * 10 + DigitOf(digits[|digits| - 1])
  }

  /** How many digits a whole number takes at the front: a zero stands alone. */
  function NumberLength(s: string): (n: nat)
    ensures n <= |s| && forall k :: 0 <= k < n ==> IsDigit(s[k])
  {
    if s != "" && s[0] == '0' then 1 else DigitCount(s)
  }

  /** A bare literal and how many characters it takes. */
  datatype Bare = Bare(value: Value, length: nat)

  function MatchNumber(s: string): (r: Option<Bare>)
    ensures r.Some? ==> 0 < r.value.length <= |s|
  {
    var sign := if s != "" && s[0] == '-' then 1 else 0;
    var n := NumberLength(s[sign..]);
    if n == 0 || !Ends(s[sign + n..]) then None
    else
      var m: int := NumberOf(s[sign..][..n]);
      if m > MAX_SAFE then None else Some(Bare(Int(if sign == 1 then -m else m), sign + n))
  }

  function MatchBare(s: string): (r: Option<Bare>)
    ensures r.Some? ==> 0 < r.value.length <= |s|
  {
    if |s| >= 4 && Begins(s, "NULL") && Ends(s[4..]) then Some(Bare(Null, 4)) else MatchNumber(s)
  }

  function ParseValue(s: string): Option<Piece<Value>> {
    if s != "" && s[0] == '\'' then
      match ParseText(s[1..]) case None => None case Some(p) => Some(Piece(Text(p.value), p.rest))
    else match MatchBare(s)
      case None => None
      case Some(bare) => Some(Piece(bare.value, s[bare.length..]))
  }

  lemma {:induction false} ParseTextShrinks(s: string)
    ensures ParseText(s).Some? ==> |ParseText(s).value.rest| < |s|
  {
    if s != "" && At(s, '\'', '\'') {
      ParseTextShrinks(s[2..]);
    } else if s != "" && s[0] != '\'' {
      ParseTextShrinks(s[1..]);
    }
  }

  lemma ParseValueShrinks(s: string)
    ensures ParseValue(s).Some? ==> |ParseValue(s).value.rest| < |s|
  {
    if s != "" && s[0] == '\'' {
      ParseTextShrinks(s[1..]);
    }
  }

  /** The cells of one row, from after its parenthesis or comma. */
  function ParseCells(s: string): Option<Piece<seq<Value>>>
    decreases |s|
  {
    ParseValueShrinks(SkipSpace(s));
    match ParseValue(SkipSpace(s))
    case None => None
    case Some(cell) =>
      var after := SkipSpace(cell.rest);
      if after != "" && after[0] == ')' then Some(Piece([cell.value], after[1..]))
      else if after != "" && after[0] == ',' then Before([cell.value], ParseCells(after[1..]))
      else None
  }

  lemma {:induction false} ParseCellsShrinks(s: string)
    ensures ParseCells(s).Some? ==> |ParseCells(s).value.rest| < |s|
    decreases |s|
  {
    ParseValueShrinks(SkipSpace(s));
    if ParseValue(SkipSpace(s)).Some? {
      var after := SkipSpace(ParseValue(SkipSpace(s)).value.rest);
      if after != "" && after[0] == ',' {
        ParseCellsShrinks(after[1..]);
      }
    }
  }

  function OpenRow(s: string): Option<Piece<seq<Value>>> {
    var open := SkipSpace(s);
    if open == "" || open[0] != '(' then None else ParseCells(open[1..])
  }

  /** The comma after a row, with something to read behind it, or the end of the text. */
  function CloseRow(rest: string): Option<string> {
    var after := SkipSpace(rest);
    if after == "" then Some("")
    else if after[0] != ',' || SkipSpace(after[1..]) == "" then None
    else Some(SkipSpace(after[1..]))
  }

  /** One row and the comma after it; nothing is left after the last row. */
  function ParseRow(s: string, limit: nat): Parsed<Piece<seq<Value>>> {
    match OpenRow(s)
    case None => Bad(InvalidSql)
    case Some(row) =>
      if limit == 0 then Bad(InvalidSize)
      else match CloseRow(row.rest)
        case None => Bad(InvalidSql)
        case Some(rest) => Fine(Piece(row.value, rest))
  }

  lemma ParseRowShrinks(s: string, limit: nat)
    ensures ParseRow(s, limit).Fine? ==> limit > 0 && |ParseRow(s, limit).value.rest| < |s|
  {
    var open := SkipSpace(s);
    if open != "" {
      ParseCellsShrinks(open[1..]);
    }
  }

  function OneLess(limit: nat): nat { if limit == 0 then 0 else limit - 1 }

  /** The rows of an INSERT, at most `limit` of them. */
  function ParseRows(s: string, limit: nat): Parsed<seq<seq<Value>>>
    decreases |s|
  {
    if s == "" then Fine([])
    else
      ParseRowShrinks(s, limit);
      match ParseRow(s, limit)
      case Bad(code) => Bad(code)
      case Fine(row) => Prepend([row.value], ParseRows(row.rest, OneLess(limit)))
  }

  // ---- the reader as it runs -----------------------------------------------------------------------------

  method Space(text: string, start: nat) returns (i: nat)
    requires start <= |text|
    ensures start <= i <= |text| && text[i..] == SkipSpace(text[start..])
  {
    i := start;
    while i < |text| && IsSpace(text[i])
      invariant start <= i <= |text| && SkipSpace(text[start..]) == SkipSpace(text[i..])
    {
      assert text[i..][1..] == text[i + 1..];
      i := i + 1;
    }
  }

  method ReadText(text: string, start: nat) returns (r: Option<string>, i: nat)
    requires start <= |text|
    ensures r == match ParseText(text[start..]) case None => None case Some(p) => Some(p.value)
    ensures r.Some? ==> start < i <= |text| && text[i..] == ParseText(text[start..]).value.rest
  {
    var str := "";
    i := start;
    BeforeNothing(ParseText(text[start..]));
    while i < |text|
      invariant start <= i <= |text|
      invariant ParseText(text[start..]) == Before(str, ParseText(text[i..]))
    {
      assert text[i..][1..] == text[i + 1..];
      var c := text[i];
      i := i + 1;
      if c == '\'' {
        if i < |text| && text[i] == '\'' {
          assert text[i - 1..][2..] == text[i + 1..];
          BeforeTwice(str, "'", ParseText(text[i + 1..]));
          str, i := str + "'", i + 1;
        } else {
          assert str + "" == str;
          return Some(str), i;
        }
      } else {
        BeforeTwice(str, [c], ParseText(text[i..]));
        str := str + [c];
      }
    }
    r := None;
  }

  /** A bare literal is matched as one piece, as the source's pattern does. */
  method ReadValue(text: string, start: nat) returns (r: Option<Value>, i: nat)
    requires start <= |text|
    ensures r == match ParseValue(text[start..]) case None => None case Some(p) => Some(p.value)
    ensures r.Some? ==> start < i <= |text| && text[i..] == ParseValue(text[start..]).value.rest
  {
    i := start;
    if start < |text| && text[start] == '\'' {
      assert text[start..][1..] == text[start + 1..];
      var str, next := ReadText(text, start + 1);
      if str.None? {
        return None, i;
      }
      return Some(Text(str.value)), next;
    }
    var bare := MatchBare(text[start..]);
    if bare.None? {
      return None, i;
    }
    r, i := Some(bare.value.value), start + bare.value.length;
    assert text[start..][bare.value.length..] == text[i..];
  }

  /** A cell, and whether it closes its row; None when neither a comma nor a parenthesis follows. */
  method ReadCell(text: string, start: nat) returns (r: Option<Value>, last: bool, i: nat)
    requires start <= |text|
    ensures r.None? ==> ParseCells(text[start..]).None?
    ensures r.Some? ==> start < i <= |text|
    ensures r.Some? && last ==> ParseCells(text[start..]) == Some(Piece([r.value], text[i..]))
    ensures r.Some? && !last ==> ParseCells(text[start..]) == Before([r.value], ParseCells(text[i..]))
  {
    var at := Space(text, start);
    var value, after := ReadValue(text, at);
    last, i := false, start;
    if value.None? {
      return None, last, i;
    }
    var next := Space(text, after);
    if next == |text| || (text[next] != ')' && text[next] != ',') {
      return None, last, i;
    }
    assert text[next..][1..] == text[next + 1..];
    r, last, i := value, text[next] == ')', next + 1;
  }

  method ReadRow(text: string, start: nat) returns (r: Option<seq<Value>>, i: nat)
    requires start <= |text|
    ensures r == match ParseCells(text[start..]) case None => None case Some(p) => Some(p.value)
    ensures r.Some? ==> start < i <= |text| && text[i..] == ParseCells(text[start..]).value.rest
  {
    var row: seq<Value> := [];
    i := start;
    BeforeNothing(ParseCells(text[start..]));
    while true
      invariant start <= i <= |text|
      invariant ParseCells(text[start..]) == Before(row, ParseCells(text[i..]))
      decreases |text| - i
    {
      var cell, last, next := ReadCell(text, i);
      if cell.None? {
        return None, i;
      }
      if last {
        return Some(row + [cell.value]), next;
      }
      BeforeTwice(row, [cell.value], ParseCells(text[next..]));
      row, i := row + [cell.value], next;
    }
  }

  method ReadOpenRow(text: string, start: nat) returns (r: Option<seq<Value>>, i: nat)
    requires start <= |text|
    ensures r == match OpenRow(text[start..]) case None => None case Some(p) => Some(p.value)
    ensures r.Some? ==> start < i <= |text| && text[i..] == OpenRow(text[start..]).value.rest
  {
    i := start;
    var open := Space(text, start);
    if open == |text| || text[open] != '(' {
      return None, i;
    }
    assert text[open..][1..] == text[open + 1..];
    r, i := ReadRow(text, open + 1);
  }

  method ReadComma(text: string, start: nat) returns (ok: bool, i: nat)
    requires start <= |text|
    ensures start <= i <= |text| && CloseRow(text[start..]) == if ok then Some(text[i..]) else None
  {
    i := start;
    var comma := Space(text, start);
    if comma == |text| {
      return true, |text|;
    }
    if text[comma] != ',' {
      return false, i;
    }
    assert text[comma..][1..] == text[comma + 1..];
    var next := Space(text, comma + 1);
    if next == |text| {
      return false, i;
    }
    return true, next;
  }

  method ReadRowAndComma(text: string, start: nat, limit: nat) returns (r: Parsed<seq<Value>>, i: nat)
    requires start <= |text|
    ensures start <= i <= |text|
    ensures ParseRow(text[start..], limit) == match r case Bad(code) => Bad(code) case Fine(row) => Fine(Piece(row, text[i..]))
  {
    i := start;
    var row, end := ReadOpenRow(text, start);
    if row.None? {
      return Bad(InvalidSql), i;
    }
    if limit == 0 {
      return Bad(InvalidSize), i;
    }
    var ok, next := ReadComma(text, end);
    if !ok {
      return Bad(InvalidSql), i;
    }
    r, i := Fine(row.value), next;
  }

  /** `whole` is what the rows read so far and the text still to read come to. */
  ghost predicate Reading(whole: Parsed<seq<seq<Value>>>, rows: seq<seq<Value>>, rest: string, left: nat) {
    whole == Prepend(rows, ParseRows(rest, left))
  }

  /** One row off the front of what is left of the text. */
  lemma ReadOne(whole: Parsed<seq<seq<Value>>>, rows: seq<seq<Value>>, s: string, left: nat, row: Parsed<seq<Value>>, rest: string)
    requires s != "" && Reading(whole, rows, s, left)
    requires ParseRow(s, left) == match row case Bad(code) => Bad(code) case Fine(r) => Fine(Piece(r, rest))
    ensures row.Bad? ==> whole == Bad(row.code)
    ensures row.Fine? ==> |rest| < |s| && Reading(whole, rows + [row.value], rest, OneLess(left))
  {
    ParseRowShrinks(s, left);
    if row.Fine? {
      PrependTwice(rows, [row.value], ParseRows(rest, OneLess(left)));
    }
  }

  lemma ReadAll(whole: Parsed<seq<seq<Value>>>, rows: seq<seq<Value>>, left: nat)
    requires Reading(whole, rows, "", left)
    ensures whole == Fine(rows)
  {
    assert rows + [] == rows;
  }

  method Literals(text: string, limit: nat) returns (r: Parsed<seq<seq<Value>>>)
    ensures r == ParseRows(text, limit)
  {
    var rows: seq<seq<Value>>, i, left := [], 0, limit;
    ghost var whole, rest := ParseRows(text, limit), text;
    PrependNothing(whole);
    while i < |text|
      invariant 0 <= i <= |text| && rest == text[i..]
      invariant Reading(whole, rows, rest, left)
    {
      var row, next := ReadRowAndComma(text, i, left);
      ReadOne(whole, rows, rest, left, row, text[next..]);
      if row.Bad? {
        return Bad(row.code);
      }
      rest := text[next..];
      rows, i, left := rows + [row.value], next, OneLess(left);
    }
    ReadAll(whole, rows, left);
    r := Fine(rows);
  }

  // ---- the import --------------------------------------------------------------------------------------------

  type Tables = map<string, seq<string>>

  /** The tables an export may fill, with their columns in order. */
  const TABLES: Tables := map[
    "arcade_engagement_visitors" := ["hash", "first_at", "expires_at", "last_at", "session", "session_at"],
    "arcade_engagement_events" := ["id", "visitor", "session", "owner", "event", "game", "run_id", "result", "locale", "at", "day", "trust"],
    "arcade_engagement_daily" := ["day", "event", "trust", "count"],
    "arcade_engagement_sources" := ["visitor", "source"]
  ]

  datatype Insert = Insert(table: string, columns: Option<seq<string>>, body: string)

  predicate IsName(c: char) { 'a' <= c <= 'z' || 'A' <= c <= 'Z' || c == '_' }

  function NameLength(s: string): (n: nat)
    ensures n <= |s|
  {
    if s != "" && IsName(s[0]) then 1 + NameLength(s[1..]) else 0
  }

  /** A table name, bare or in double quotes or back quotes. */
  function ParseName(s: string): Option<Piece<string>> {
    var quoted := s != "" && (s[0] == '"' || s[0] == '`');
    var body := if quoted then s[1..] else s;
    var n := NameLength(body);
    if n == 0 || (quoted && (n == |body| || body[n] != s[0])) then None
    else Some(Piece(body[..n], if quoted then body[n + 1..] else body[n..]))
  }

  function IndexOf(s: string, c: char): (n: nat)
    ensures n <= |s|
  {
    if s == "" || s[0] == c then 0 else 1 + IndexOf(s[1..], c)
  }

  function Unquoted(s: string): string {
    var t := if s != "" && (s[0] == '"' || s[0] == '`') then s[1..] else s;
    if t != "" && (t[|t| - 1] == '"' || t[|t| - 1] == '`') then t[..|t| - 1] else t
  }

  function ColumnNames(s: string): seq<string>
    decreases |s|
  {
    var n := IndexOf(s, ',');
    [Unquoted(Trim(s[..n]))] + if n == |s| then [] else ColumnNames(s[n + 1..])
  }

  /** From after the table name: an optional column list, then white space, VALUES and the rows. */
  function ParseValues(table: string, columns: Option<seq<string>>, s: string): Option<Insert> {
    var t := SkipSpace(s);
    if t == s || !Begins(t, "VALUES") || |t| <= 6 then None
    else
      var body := SkipSpace(t[6..]);
      Some(Insert(table, columns, if body == "" then t[|t| - 1..] else body))
  }

  function ParseInsert(s: string): Option<Insert> {
    if !Begins(s, "INSERT INTO") || |s| < 11 || SkipSpace(s[11..]) == s[11..] then None
    else match ParseName(SkipSpace(s[11..]))
      case None => None
      case Some(name) =>
        var t := SkipSpace(name.rest);
        if t == "" || t[0] != '(' then ParseValues(name.value, None, name.rest)
        else
          var n := IndexOf(t, ')');
          if n == |t| || n < 2 then None
          else ParseValues(name.value, Some(ColumnNames(t[1..n])), t[n + 1..])
  }

  predicate SwitchWord(s: string) {
    s in {"ON", "OFF", "TRUE", "FALSE", "0", "1"}
  }

  function UpperAll(s: string): string {
    if s == "" then "" else [Upper(s[0])] + UpperAll(s[1..])
  }

  predicate Setting(s: string, name: string) {
    |s| >= |name| && s[..|name|] == name &&
    var t := SkipSpace(s[|name|..]);
    t != "" && t[0] == '=' && SwitchWord(SkipSpace(t[1..]))
  }

  /** The statements of a dump that carry no data. */
  predicate Skipped(s: string) {
    var u := UpperAll(s);
    || u == "BEGIN TRANSACTION" || u == "COMMIT"
    || (Begins(u, "PRAGMA ") && |u| > 7 && (Setting(u[7..], "DEFER_FOREIGN_KEYS") || Setting(u[7..], "FOREIGN_KEYS")))
  }

  /** A row on file, in the table's own column order. */
  datatype Stored = Stored(table: string, row: seq<Value>)

  function PositionOf(columns: seq<string>, c: string): (n: nat)
    ensures n <= |columns| && (n < |columns| ==> columns[n] == c)
    ensures n == |columns| <==> c !in columns
  {
    if columns == [] || columns[0] == c then 0 else 1 + PositionOf(columns[1..], c)
  }

  predicate Covers(columns: seq<string>, expected: seq<string>) {
    && |columns| == |expected|
    && (forall j, k :: 0 <= j < k < |columns| ==> columns[j] != columns[k])
    && (forall j :: 0 <= j < |columns| ==> columns[j] in expected)
    && (forall j :: 0 <= j < |expected| ==> expected[j] in columns)
  }

  function Arrange(row: seq<Value>, columns: seq<string>, expected: seq<string>): seq<Value>
    requires Covers(columns, expected) && |row| == |columns|
  {
    seq(|expected|, j requires 0 <= j < |expected| => row[PositionOf(columns, expected[j])])
  }

  function StoreRows(table: string, rows: seq<seq<Value>>, columns: seq<string>, expected: seq<string>): Parsed<seq<Stored>>
    requires Covers(columns, expected)
  {
    if rows == [] then Fine([])
    else if |rows[0]| != |columns| then Bad(InvalidSize)
    else Prepend([Stored(table, Arrange(rows[0], columns, expected))], StoreRows(table, rows[1..], columns, expected))
  }

  function ImportStatement(tables: Tables, s: string, room: nat): Parsed<seq<Stored>> {
    if Skipped(s) then Fine([])
    else match ParseInsert(s)
      case None => Bad(DataOnlyRequired)
      case Some(insert) =>
        if insert.table !in tables then Bad(UnexpectedTable)
        else
          var expected := tables[insert.table];
          var columns := if insert.columns.Some? then insert.columns.value else expected;
          if !Covers(columns, expected) then Bad(InvalidColumns)
          else match ParseRows(insert.body, room)
            case Bad(code) => Bad(code)
            case Fine(rows) => StoreRows(insert.table, rows, columns, expected)
  }

  /** The room left after storing some rows. */
  function Less(room: nat, rows: seq<Stored>): nat { if |rows| > room then 0 else room - |rows| }

  function ImportAll(tables: Tables, statements: seq<string>, room: nat): Parsed<seq<Stored>> {
    if statements == [] then Fine([])
    else
      var first := ImportStatement(tables, statements[0], room);
      if first.Bad? then first
      else if |first.value| > room then Bad(InvalidSize)
      else Prepend(first.value, ImportAll(tables, statements[1..], Less(room, first.value)))
  }

  function Import(tables: Tables, sql: string): Parsed<seq<Stored>> {
    match Split(sql, "", false)
    case Bad(code) => Bad(code)
    case Fine(statements) => ImportAll(tables, statements, MAX_IMPORT_ROWS)
  }
}
