/**
 * What the importer refuses: whatever text it is given, all it can store is data of the tables it knows,
 * and a text that is not wholly such data stores nothing.
 */
module SqlRefusals {
  import opened Wrappers
  import opened JsText
  import opened SqlReader
  import opened SqlRoundTrip
  import opened SqlExport

  // ---- what is read was spelled ----------------------------------------------------------------------------

  /** How a value may be written: a quoted text, NULL in any case, or a whole number that a double holds. */
  ghost predicate Spells(x: string, v: Value) {
    match v
    case Text(t) => x == "'" + (Doubled(t) + "'")
    case Null => |x| == 4 && UpperAll(x) == "NULL"
    case Int(n) =>
      -9_007_199_254_740_991 <= n <= 9_007_199_254_740_991
      && ((n >= 0 && x == Decimal(n)) || (n <= 0 && x == "-" + Decimal(-n)))
  }

  lemma {:induction false} SpaceSplits(s: string) returns (ws: string)
    ensures AllSpace(ws) && s == ws + SkipSpace(s)
  {
    if s != "" && IsSpace(s[0]) {
      var more := SpaceSplits(s[1..]);
      ws := [s[0]] + more;
      assert s == [s[0]] + s[1..];
    } else {
      ws := "";
    }
  }

  lemma {:induction false} TextSpelled(s: string)
    requires ParseText(s).Some?
    ensures var p := ParseText(s).value; s == Doubled(p.value) + ("'" + p.rest)
  {
    if At(s, '\'', '\'') {
      TextSpelled(s[2..]);
      var p := ParseText(s[2..]).value;
      assert ParseText(s).value == Piece("'" + p.value, p.rest);
      DoubledStep('\'', p.value);
      assert s == "''" + s[2..];
    } else if s[0] == '\'' {
      assert s == "'" + s[1..] && Doubled("") == "";
    } else {
      TextSpelled(s[1..]);
      var p := ParseText(s[1..]).value;
      assert ParseText(s).value == Piece([s[0]] + p.value, p.rest);
      DoubledStep(s[0], p.value);
      assert s == [s[0]] + s[1..];
    }
  }

  lemma DoubledStep(c: char, s: string)
    ensures Doubled([c] + s) == (if c == '\'' then "''" else [c]) + Doubled(s)
  {
    assert ([c] + s)[1..] == s;
  }

  /** Digits without a leading zero are the printing of the number they come to. */
  lemma {:induction false} DigitsPrint(d: string)
    requires d != "" && (forall k :: 0 <= k < |d| ==> IsDigit(d[k])) && (d[0] == '0' ==> |d| == 1)
    ensures Decimal(NumberOf(d)) == d && (d[0] != '0' ==> NumberOf(d) > 0)
  {
    var front, last := d[..|d| - 1], d[|d| - 1];
    assert d == front + [last] && Digit(DigitOf(last)) == last;
    if front == "" {
      assert NumberOf("") == 0 && NumberOf(d) == DigitOf(last);
    } else {
      DigitsPrint(front);
      assert NumberOf(d) / 10 == NumberOf(front) && NumberOf(d) % 10 == DigitOf(last);
    }
  }

  lemma NumberSpelled(s: string)
    requires MatchNumber(s).Some?
    ensures var bare := MatchNumber(s).value;
            bare.value.Int? && Spells(s[..bare.length], bare.value) && Ends(s[bare.length..])
  {
    var sign := if s != "" && s[0] == '-' then 1 else 0;
    var n := NumberLength(s[sign..]);
    var digits := s[sign..][..n];
    DigitsPrint(digits);
    assert s[..sign + n] == s[..sign] + digits;
    assert s[..sign] == if sign == 1 then "-" else "";
  }

  lemma {:induction false} BeginsUpper(s: string, word: string)
    requires Begins(s, word)
    ensures |s| >= |word| && UpperAll(s[..|word|]) == word
  {
    if word != "" {
      BeginsUpper(s[1..], word[1..]);
      assert s[..|word|][1..] == s[1..][..|word| - 1];
      assert word == [word[0]] + word[1..];
    }
  }

  lemma QuotedSpelled(s: string, p: Piece<string>)
    requires s != "" && s[0] == '\'' && ParseText(s[1..]) == Some(p)
    ensures Spells("'" + (Doubled(p.value) + "'"), Text(p.value)) && s == "'" + (Doubled(p.value) + "'") + p.rest
  {
    TextSpelled(s[1..]);
    assert s == "'" + s[1..];
    Regrouped("'", Doubled(p.value), "'", p.rest);
  }

  lemma Regrouped(a: string, b: string, c: string, d: string)
    ensures a + (b + (c + d)) == (a + (b + c)) + d
  {
  }

  lemma BareSpelled(s: string)
    requires MatchBare(s).Some?
    ensures var bare := MatchBare(s).value; Spells(s[..bare.length], bare.value)
  {
    if |s| >= 4 && Begins(s, "NULL") && Ends(s[4..]) {
      BeginsUpper(s, "NULL");
    } else {
      NumberSpelled(s);
    }
  }

  lemma ValueSpelled(s: string) returns (x: string)
    requires ParseValue(s).Some?
    ensures var p := ParseValue(s).value; Spells(x, p.value) && s == x + p.rest
  {
    if s != "" && s[0] == '\'' {
      var p := ParseText(s[1..]).value;
      QuotedSpelled(s, p);
      x := "'" + (Doubled(p.value) + "'");
    } else {
      BareSpelled(s);
      x := s[..MatchBare(s).value.length];
    }
  }

  /** One cell as it was written, with the white space around it. */
  datatype Cell = Cell(before: string, text: string, value: Value, after: string)
  {
    ghost predicate Valid() { AllSpace(before) && AllSpace(after) && Spells(text, value) }
  }

  function Written(cells: seq<Cell>): string
    requires cells != []
  {
    cells[0].before + (cells[0].text + (cells[0].after + if |cells| == 1 then ")" else "," + Written(cells[1..])))
  }

  function ValuesOf(cells: seq<Cell>): seq<Value> { seq(|cells|, k requires 0 <= k < |cells| => cells[k].value) }

  ghost predicate AllValid(cells: seq<Cell>) { forall k :: 0 <= k < |cells| ==> cells[k].Valid() }

  lemma LastCellWritten(c: Cell, s: string, rest: string)
    requires s == c.before + (c.text + (c.after + (")" + rest)))
    ensures s == Written([c]) + rest && ValuesOf([c]) == [c.value]
  {
  }

  lemma NextCellWritten(c: Cell, more: seq<Cell>, s: string, rest: string)
    requires more != [] && s == c.before + (c.text + (c.after + ("," + (Written(more) + rest))))
    ensures s == Written([c] + more) + rest && ValuesOf([c] + more) == [c.value] + ValuesOf(more)
  {
    var cells := [c] + more;
    assert cells[1..] == more;
    assert Written(cells) == c.before + (c.text + (c.after + ("," + Written(more))));
  }

  lemma CellSpelled(s: string) returns (c: Cell, close: string)
    requires ParseCells(s).Some?
    ensures c.Valid() && close != "" && |close| < |s| && s == c.before + (c.text + (c.after + close))
    ensures close[0] == ')' ==> ParseCells(s) == Some(Piece([c.value], close[1..]))
    ensures close[0] != ')' ==> close[0] == ',' && ParseCells(s) == Before([c.value], ParseCells(close[1..]))
  {
    var before := SpaceSplits(s);
    var x := ValueSpelled(SkipSpace(s));
    var v := ParseValue(SkipSpace(s)).value;
    ParseValueShrinks(SkipSpace(s));
    var after := SpaceSplits(v.rest);
    close := SkipSpace(v.rest);
    c := Cell(before, x, v.value, after);
  }

  lemma {:induction false} CellsSpelled(s: string) returns (cells: seq<Cell>)
    requires ParseCells(s).Some?
    ensures var p := ParseCells(s).value;
            cells != [] && AllValid(cells) && ValuesOf(cells) == p.value && s == Written(cells) + p.rest
    decreases |s|
  {
    var c, close := CellSpelled(s);
    assert close == [close[0]] + close[1..];
    if close[0] == ')' {
      cells := [c];
      LastCellWritten(c, s, close[1..]);
    } else {
      var more := CellsSpelled(close[1..]);
      cells := [c] + more;
      NextCellWritten(c, more, s, ParseCells(close[1..]).value.rest);
    }
  }

  /** One row as it was written, with the white space around it and behind its comma. */
  datatype Line = Line(before: string, cells: seq<Cell>, after: string, behind: string)
  {
    ghost predicate Valid() { AllSpace(before) && AllSpace(after) && AllSpace(behind) && cells != [] && AllValid(cells) }
  }

  ghost predicate LinesValid(lines: seq<Line>) { forall k :: 0 <= k < |lines| ==> lines[k].Valid() }

  /** A comma stands behind every row but the last. */
  function LineThen(line: Line, rest: string): string
    requires line.cells != []
  {
    line.before + ("(" + (Written(line.cells) + (line.after + if rest == "" then "" else "," + (line.behind + rest))))
  }

  ghost function Lines(lines: seq<Line>): string
    requires LinesValid(lines)
  {
    if lines == [] then ""
    else
      assert lines[0].Valid();
      LineThen(lines[0], Lines(lines[1..]))
  }

  function RowsOf(lines: seq<Line>): seq<seq<Value>> { seq(|lines|, k requires 0 <= k < |lines| => ValuesOf(lines[k].cells)) }

  lemma CommaSpelled(rest: string) returns (after: string, behind: string)
    requires CloseRow(rest).Some?
    ensures AllSpace(after) && AllSpace(behind)
    ensures rest == after + if CloseRow(rest).value == "" then "" else "," + (behind + CloseRow(rest).value)
  {
    after := SpaceSplits(rest);
    var close := SkipSpace(rest);
    behind := "";
    if close != "" {
      behind := SpaceSplits(close[1..]);
      assert close == "," + close[1..];
    }
  }

  lemma RowSpelled(s: string, limit: nat) returns (line: Line)
    requires ParseRow(s, limit).Fine?
    ensures limit > 0 && line.Valid() && ValuesOf(line.cells) == ParseRow(s, limit).value.value
    ensures s == LineThen(line, ParseRow(s, limit).value.rest)
  {
    var open := SkipSpace(s);
    var before := SpaceSplits(s);
    var cells := CellsSpelled(open[1..]);
    var rest := ParseCells(open[1..]).value.rest;
    var after, behind := CommaSpelled(rest);
    line := Line(before, cells, after, behind);
    LineIs(s, open, line, rest, ParseRow(s, limit).value.rest);
  }

  lemma LineIs(s: string, open: string, line: Line, rest: string, next: string)
    requires line.cells != [] && s == line.before + open && open != "" && open[0] == '(' && open[1..] == Written(line.cells) + rest
    requires rest == line.after + if next == "" then "" else "," + (line.behind + next)
    ensures s == LineThen(line, next)
  {
    assert open == "(" + open[1..];
  }

  lemma OneMoreLine(line: Line, more: seq<Line>)
    requires line.Valid() && LinesValid(more)
    ensures LinesValid([line] + more) && RowsOf([line] + more) == [ValuesOf(line.cells)] + RowsOf(more)
    ensures Lines([line] + more) == LineThen(line, Lines(more))
  {
    assert ([line] + more)[1..] == more;
  }

  /**
   * Whatever text is read as rows was a writing of those rows: parentheses, commas and white space, and in them
   * values as they may be spelled. And there are no more of them than the limit.
   */
  lemma {:induction false} RowsSpelled(s: string, limit: nat) returns (lines: seq<Line>)
    requires ParseRows(s, limit).Fine?
    ensures LinesValid(lines) && RowsOf(lines) == ParseRows(s, limit).value && s == Lines(lines) && |lines| <= limit
    decreases |s|
  {
    lines := [];
    if s != "" {
      ParseRowShrinks(s, limit);
      var line := RowSpelled(s, limit);
      var row := ParseRow(s, limit).value;
      var more := RowsSpelled(row.rest, OneLess(limit));
      lines := [line] + more;
      OneMoreLine(line, more);
    }
  }

  // ---- what is taken for an INSERT -------------------------------------------------------------------------

  /** The parts of an INSERT as it was written; `list` is the column list with its parentheses, or nothing. */
  datatype Spelling = Spelling(insert: string, lead: string, quote: Quote, table: string, gap: string, names: Option<string>,
                               space: string, values: string, sep: string, body: string)
  {
    predicate Valid() {
      && UpperAll(insert) == "INSERT INTO" && AllSpace(lead) && lead != ""
      && table != "" && (forall k :: 0 <= k < |table| ==> 'a' <= table[k] <= 'z' || 'A' <= table[k] <= 'Z' || table[k] == '_')
      && AllSpace(gap) && (names.Some? ==> names.value != "" && ')' !in names.value)
      && AllSpace(space) && space != "" && UpperAll(values) == "VALUES" && AllSpace(sep) && body != ""
    }

    function List(): string { if names.None? then "" else gap + ("(" + (names.value + ")")) }

    function Text(): string {
      insert + (lead + (PrintName(quote, table) + (List() + (space + (values + (sep + body))))))
    }

    function Columns(): Option<seq<string>> { if names.None? then None else Some(ColumnNames(names.value)) }
  }

  /** The end of an INSERT: white space, VALUES and what follows it. */
  lemma ValuesSpelled(table: string, columns: Option<seq<string>>, s: string) returns (space: string, values: string, sep: string, body: string)
    requires ParseValues(table, columns, s).Some?
    ensures AllSpace(space) && space != "" && UpperAll(values) == "VALUES" && AllSpace(sep) && body != ""
    ensures s == space + (values + (sep + body)) && ParseValues(table, columns, s) == Some(Insert(table, columns, body))
  {
    var t := SkipSpace(s);
    space := SpaceSplits(s);
    assert space == "" ==> s == t;
    BeginsUpper(t, "VALUES");
    values := t[..6];
    sep := SpaceSplits(t[6..]);
    body := SkipSpace(t[6..]);
    assert t == values + t[6..];
    if body == "" {
      assert t[6..] == sep + "" == sep;
      sep, body := sep[..|sep| - 1], t[|t| - 1..];
      assert t[6..] == sep + body;
    }
  }

  lemma {:induction false} NameChars(s: string)
    ensures forall k :: 0 <= k < NameLength(s) ==> IsName(s[k])
  {
    if s != "" && IsName(s[0]) {
      NameChars(s[1..]);
    }
  }

  lemma QuotedName(s: string, q: Quote, name: string, rest: string)
    requires !q.Bare? && s != "" && [s[0]] == q.Mark() && |name| < |s| - 1 && s[1..][..|name|] == name
    requires s[1..][|name|] == s[0] && s[1..][|name| + 1..] == rest
    ensures s == PrintName(q, name) + rest
  {
    assert s[1..] == name + ([s[0]] + rest);
    assert s == [s[0]] + s[1..];
  }

  lemma BareName(s: string, name: string)
    requires |name| <= |s| && s[..|name|] == name
    ensures s == PrintName(Quote.Bare, name) + s[|name|..]
  {
    assert PrintName(Quote.Bare, name) == name;
  }

  lemma NameSpelled(s: string) returns (q: Quote)
    requires ParseName(s).Some?
    ensures var name := ParseName(s).value;
            && s == PrintName(q, name.value) + name.rest && name.value != ""
            && forall k :: 0 <= k < |name.value| ==> IsName(name.value[k])
  {
    var name := ParseName(s).value;
    if s[0] == '"' || s[0] == '`' {
      NameChars(s[1..]);
      q := if s[0] == '"' then Double else Back;
      QuotedName(s, q, name.value, name.rest);
    } else {
      NameChars(s);
      q := Quote.Bare;
      BareName(s, name.value);
    }
  }

  lemma {:induction false} NotBefore(s: string, c: char)
    ensures c !in s[..IndexOf(s, c)] && (IndexOf(s, c) < |s| ==> s[IndexOf(s, c)] == c)
  {
    if s != "" && s[0] != c {
      NotBefore(s[1..], c);
      assert s[..IndexOf(s, c)] == [s[0]] + s[1..][..IndexOf(s[1..], c)];
    }
  }

  /** Behind the table name: the column list, if there is one, and the rest. */
  lemma ListSpelled(t: string) returns (names: string, rest: string)
    requires t != "" && t[0] == '(' && 2 <= IndexOf(t, ')') < |t|
    ensures names == t[1..IndexOf(t, ')')] && rest == t[IndexOf(t, ')') + 1..]
    ensures names != "" && ')' !in names && t == "(" + (names + (")" + rest))
  {
    var n := IndexOf(t, ')');
    NotBefore(t, ')');
    names, rest := t[1..n], t[n + 1..];
    assert t[..n] == "(" + names;
    assert t == t[..n] + ([t[n]] + rest);
    assert forall k :: 0 <= k < |names| ==> names[k] == t[..n][k + 1];
  }

  lemma PlainInsert(s: string, x: Spelling, tail: string)
    requires x.names.None? && s == x.insert + (x.lead + (PrintName(x.quote, x.table) + tail)) && tail == x.space + (x.values + (x.sep + x.body))
    ensures s == x.Text()
  {
    assert x.List() + tail == tail;
  }

  lemma ListedInsert(s: string, x: Spelling, tail: string, rest: string)
    requires x.names.Some? && s == x.insert + (x.lead + (PrintName(x.quote, x.table) + tail))
    requires rest == x.space + (x.values + (x.sep + x.body)) && tail == x.gap + ("(" + (x.names.value + (")" + rest)))
    ensures s == x.Text()
  {
    assert tail == x.List() + rest;
  }

  /** Whatever statement is taken for an INSERT was written as one. */
  lemma InsertSpelled(s: string) returns (x: Spelling)
    requires ParseInsert(s).Some?
    ensures x.Valid() && s == x.Text() && ParseInsert(s) == Some(Insert(x.table, x.Columns(), x.body))
  {
    BeginsUpper(s, "INSERT INTO");
    var lead := SpaceSplits(s[11..]);
    var named := SkipSpace(s[11..]);
    var name := ParseName(named).value;
    var q := NameSpelled(named);
    assert s == s[..11] + s[11..];
    var t := SkipSpace(name.rest);
    if t == "" || t[0] != '(' {
      var space, values, sep, body := ValuesSpelled(name.value, None, name.rest);
      x := Spelling(s[..11], lead, q, name.value, "", None, space, values, sep, body);
      PlainInsert(s, x, name.rest);
    } else {
      var gap := SpaceSplits(name.rest);
      var names, rest := ListSpelled(t);
      var space, values, sep, body := ValuesSpelled(name.value, Some(ColumnNames(names)), rest);
      x := Spelling(s[..11], lead, q, name.value, gap, Some(names), space, values, sep, body);
      ListedInsert(s, x, name.rest, rest);
    }
  }

  // ---- what is passed over ---------------------------------------------------------------------------------

  /** The marks of a transaction and the two settings of foreign keys, in capitals. */
  ghost predicate IsMark(u: string) {
    || u in {"BEGIN TRANSACTION", "COMMIT"}
    || exists name, before, after, word ::
         && name in {"DEFER_FOREIGN_KEYS", "FOREIGN_KEYS"} && word in {"ON", "OFF", "TRUE", "FALSE", "0", "1"}
         && AllSpace(before) && AllSpace(after) && u == PrintSetting(name, before, after, word)
  }

  lemma SettingSpelled(s: string, name: string) returns (before: string, after: string, word: string)
    requires Setting(s, name)
    ensures AllSpace(before) && AllSpace(after) && word in {"ON", "OFF", "TRUE", "FALSE", "0", "1"}
    ensures s == name + (before + ("=" + (after + word)))
  {
    var rest := s[|name|..];
    before := SpaceSplits(rest);
    var t := SkipSpace(rest);
    after := SpaceSplits(t[1..]);
    word := SkipSpace(t[1..]);
    assert t == "=" + t[1..];
    assert s == name + rest;
  }

  lemma MarkBy(u: string, name: string, before: string, after: string, word: string)
    requires name in {"DEFER_FOREIGN_KEYS", "FOREIGN_KEYS"} && word in {"ON", "OFF", "TRUE", "FALSE", "0", "1"}
    requires AllSpace(before) && AllSpace(after) && u == "PRAGMA " + (name + (before + ("=" + (after + word))))
    ensures IsMark(u)
  {
    assert u == PrintSetting(name, before, after, word);
  }

  lemma PragmaIsMark(u: string, name: string)
    requires name in {"DEFER_FOREIGN_KEYS", "FOREIGN_KEYS"}
    requires Begins(u, "PRAGMA ") && |u| > 7 && UpperAll(u) == u && Setting(u[7..], name)
    ensures IsMark(u)
  {
    var before, after, word := SettingSpelled(u[7..], name);
    PragmaSplits(u);
    MarkBy(u, name, before, after, word);
  }

  lemma PragmaSplits(u: string)
    requires Begins(u, "PRAGMA ") && |u| > 7 && UpperAll(u) == u
    ensures u == "PRAGMA " + u[7..]
  {
    BeginsUpper(u, "PRAGMA ");
    UpperParts(u[..7], u[7..]);
    assert u == u[..7] + u[7..];
  }

  lemma MarkPasses(u: string)
    requires IsMark(u) && u !in {"BEGIN TRANSACTION", "COMMIT"}
    ensures Begins(u, "PRAGMA ") && |u| > 7 && (Setting(u[7..], "DEFER_FOREIGN_KEYS") || Setting(u[7..], "FOREIGN_KEYS"))
  {
    var name, before, after, word :|
      && name in {"DEFER_FOREIGN_KEYS", "FOREIGN_KEYS"} && word in {"ON", "OFF", "TRUE", "FALSE", "0", "1"}
      && AllSpace(before) && AllSpace(after) && u == PrintSetting(name, before, after, word);
    SettingIsPassed(u, name, before, after, word);
  }

  lemma SettingIsPassed(u: string, name: string, before: string, after: string, word: string)
    requires AllSpace(before) && AllSpace(after) && SwitchWord(word) && u == PrintSetting(name, before, after, word)
    ensures Begins(u, "PRAGMA ") && |u| > 7 && Setting(u[7..], name)
  {
    var tail := name + (before + ("=" + (after + word)));
    SqlExport.BeginsWith("PRAGMA ", tail);
    assert u == "PRAGMA " + tail && u[7..] == tail;
    SettingReads(name, before, after, word);
  }

  lemma {:induction false} UpperTwice(s: string)
    ensures UpperAll(UpperAll(s)) == UpperAll(s)
  {
    if s != "" {
      UpperTwice(s[1..]);
      assert UpperAll(s)[1..] == UpperAll(s[1..]);
    }
  }

  /** A statement is passed over if and only if, in capitals, it is one of those. */
  lemma PassedOverIff(s: string)
    ensures Skipped(s) <==> IsMark(UpperAll(s))
  {
    var u := UpperAll(s);
    UpperTwice(s);
    if Skipped(s) && u !in {"BEGIN TRANSACTION", "COMMIT"} {
      PragmaIsMark(u, if Setting(u[7..], "DEFER_FOREIGN_KEYS") then "DEFER_FOREIGN_KEYS" else "FOREIGN_KEYS");
    }
    if IsMark(u) && u !in {"BEGIN TRANSACTION", "COMMIT"} {
      MarkPasses(u);
    }
  }

  // ---- what is stored --------------------------------------------------------------------------------------

  /** Each of the table's columns, once. */
  predicate EachOnce(columns: seq<string>, expected: seq<string>) {
    && |columns| == |expected| && (forall j, k :: 0 <= j < k < |columns| ==> columns[j] != columns[k])
    && (forall j :: 0 <= j < |columns| ==> columns[j] in expected) && (forall j :: 0 <= j < |expected| ==> expected[j] in columns)
  }

  /** The statement was written as an INSERT of these rows, into a table on the list, and into each of its columns. */
  ghost predicate Inserts(tables: Tables, st: string, x: Spelling, lines: seq<Line>) {
    && x.Valid() && st == x.Text() && x.table in tables && LinesValid(lines) && x.body == Lines(lines)
    && var columns := if x.names.None? then tables[x.table] else ColumnNames(x.names.value);
       && EachOnce(columns, tables[x.table])
       && forall k :: 0 <= k < |lines| ==> |lines[k].cells| == |columns|
  }

  ghost predicate DataOnly(tables: Tables, st: string) {
    IsMark(UpperAll(st)) || exists x, lines :: Inserts(tables, st, x, lines)
  }

  /** A row that may be on file: of a table on the list, with a value for each column, every number within what a double holds. */
  predicate Storable(tables: Tables, r: Stored) {
    && r.table in tables && |r.row| == |tables[r.table]|
    && forall k :: 0 <= k < |r.row| && r.row[k].Int? ==> -9_007_199_254_740_991 <= r.row[k].n <= 9_007_199_254_740_991
  }

  lemma {:induction false} StoredRows(tables: Tables, table: string, rows: seq<seq<Value>>, columns: seq<string>, lines: seq<Line>)
    requires table in tables && Covers(columns, tables[table]) && LinesValid(lines) && rows == RowsOf(lines)
    requires StoreRows(table, rows, columns, tables[table]).Fine?
    ensures var stored := StoreRows(table, rows, columns, tables[table]).value;
            && |stored| == |rows| && (forall k :: 0 <= k < |stored| ==> Storable(tables, stored[k]))
            && (forall k :: 0 <= k < |lines| ==> |lines[k].cells| == |columns|)
    decreases |rows|
  {
    if rows != [] {
      assert rows[1..] == RowsOf(lines[1..]);
      StoredRows(tables, table, rows[1..], columns, lines[1..]);
      assert lines[0].Valid();
      OneStored(tables, table, lines[0], columns);
      assert forall k :: 0 < k < |lines| ==> lines[k] == lines[1..][k - 1];
    }
  }

  lemma OneStored(tables: Tables, table: string, line: Line, columns: seq<string>)
    requires table in tables && Covers(columns, tables[table]) && line.Valid() && |line.cells| == |columns|
    ensures Storable(tables, Stored(table, Arrange(ValuesOf(line.cells), columns, tables[table])))
  {
    var row, expected := ValuesOf(line.cells), tables[table];
    forall k | 0 <= k < |expected|
      ensures Arrange(row, columns, expected)[k].Int? ==> -9_007_199_254_740_991 <= Arrange(row, columns, expected)[k].n <= 9_007_199_254_740_991
    {
      var n := PositionOf(columns, expected[k]);
      assert line.cells[n].Valid();
    }
  }

  lemma StatementIsData(tables: Tables, st: string, room: nat)
    requires ImportStatement(tables, st, room).Fine?
    ensures var stored := ImportStatement(tables, st, room).value;
            && DataOnly(tables, st) && |stored| <= room && forall k :: 0 <= k < |stored| ==> Storable(tables, stored[k])
  {
    PassedOverIff(st);
    if !Skipped(st) {
      var x := InsertSpelled(st);
      var expected := tables[x.table];
      var columns := if x.names.None? then expected else ColumnNames(x.names.value);
      var lines := RowsSpelled(x.body, room);
      StoredRows(tables, x.table, ParseRows(x.body, room).value, columns, lines);
      assert Inserts(tables, st, x, lines);
    }
  }

  lemma {:induction false} StatementsAreData(tables: Tables, sts: seq<string>, room: nat)
    requires ImportAll(tables, sts, room).Fine?
    ensures var stored := ImportAll(tables, sts, room).value;
            && |stored| <= room && (forall k :: 0 <= k < |stored| ==> Storable(tables, stored[k]))
            && forall k :: 0 <= k < |sts| ==> DataOnly(tables, sts[k])
    decreases |sts|
  {
    if sts != [] {
      var first := ImportStatement(tables, sts[0], room).value;
      StatementIsData(tables, sts[0], room);
      StatementsAreData(tables, sts[1..], Less(room, first));
      assert forall k :: 0 < k < |sts| ==> sts[k] == sts[1..][k - 1];
    }
  }

  /**
   * Whatever text is imported was wholly data: it splits into statements, each of which is a mark, a foreign-key
   * setting, or an INSERT of rows as they may be written into each column of a table on the list. What is stored
   * is rows of those tables, full ones, and no more than half a million of them.
   */
  lemma OnlyDataIsImported(tables: Tables, sql: string)
    requires Import(tables, sql).Fine?
    ensures Split(sql, "", false).Fine?
    ensures var sts, stored := Split(sql, "", false).value, Import(tables, sql).value;
            && (forall k :: 0 <= k < |sts| ==> DataOnly(tables, sts[k]))
            && |stored| <= 500_000 && forall k :: 0 <= k < |stored| ==> Storable(tables, stored[k])
  {
    StatementsAreData(tables, Split(sql, "", false).value, MAX_IMPORT_ROWS);
  }

  // ---- why a statement is refused --------------------------------------------------------------------------

  /** A statement that is neither a mark nor written as an INSERT is refused as no data. */
  lemma OtherStatementIsRefused(tables: Tables, st: string, room: nat)
    requires !IsMark(UpperAll(st)) && forall x: Spelling :: x.Valid() ==> st != x.Text()
    ensures ImportStatement(tables, st, room) == Bad(DataOnlyRequired)
  {
    PassedOverIff(st);
    if ParseInsert(st).Some? {
      var x := InsertSpelled(st);
    }
  }

  lemma {:induction false} TooManyRows(rows: seq<seq<Value>>, sep: string, limit: nat)
    requires Printable(rows) && AllSpace(sep) && |rows| > limit
    ensures ParseRows(PrintRows(rows, sep), limit) == Bad(InvalidSize)
    decreases |rows|
  {
    if limit == 0 {
      var more := RowsOpen(rows, sep);
      NoRoom(rows[0], sep, more);
    } else {
      ManyRows(rows, sep);
      TooManyRows(rows[1..], sep, OneLess(limit));
      RowRefuses(rows[0], sep, PrintRows(rows[1..], sep), limit);
    }
  }

  lemma RowsOpen(rows: seq<seq<Value>>, sep: string) returns (more: string)
    requires rows != [] && forall j :: 0 <= j < |rows| ==> rows[j] != []
    ensures PrintRows(rows, sep) == "(" + (PrintCells(rows[0], sep) + more)
  {
    more := if |rows| == 1 then "" else sep + ("," + (sep + PrintRows(rows[1..], sep)));
  }

  lemma NoRoom(row: seq<Value>, sep: string, more: string)
    requires row != [] && AllSpace(sep) && forall k :: 0 <= k < |row| ==> Safe(row[k])
    ensures ParseRows("(" + (PrintCells(row, sep) + more), 0) == Bad(InvalidSize)
  {
    var s := "(" + (PrintCells(row, sep) + more);
    CellsRead(row, sep, more);
    SkipsTo("", s);
    assert "" + s == s && s[1..] == PrintCells(row, sep) + more;
  }

  lemma RowRefuses(row: seq<Value>, sep: string, next: string, limit: nat)
    requires row != [] && AllSpace(sep) && forall k :: 0 <= k < |row| ==> Safe(row[k])
    requires limit > 0 && next != "" && next[0] == '(' && ParseRows(next, OneLess(limit)) == Bad(InvalidSize)
    ensures ParseRows("(" + (PrintCells(row, sep) + (sep + ("," + (sep + next)))), limit) == Bad(InvalidSize)
  {
    RowReads(row, sep, next, limit);
  }

  lemma {:induction false} WrongWidth(table: string, rows: seq<seq<Value>>, columns: seq<string>, expected: seq<string>)
    requires Covers(columns, expected)
    ensures var stored := StoreRows(table, rows, columns, expected);
            if forall k :: 0 <= k < |rows| ==> |rows[k]| == |columns| then stored.Fine? && |stored.value| == |rows|
            else stored == Bad(InvalidSize)
  {
    if rows != [] {
      WrongWidth(table, rows[1..], columns, expected);
      assert forall k :: 0 < k < |rows| ==> rows[k] == rows[1..][k - 1];
      assert forall k :: 0 <= k < |rows| - 1 ==> rows[1..][k] == rows[k + 1];
    }
  }

  function ColumnsOf(tables: Tables, insert: Insert): seq<string>
    requires insert.table in tables
  {
    if insert.columns.Some? then insert.columns.value else tables[insert.table]
  }

  lemma TakenApart(tables: Tables, st: string, insert: Insert, room: nat)
    requires !Skipped(st) && ParseInsert(st) == Some(insert)
    ensures var answer := ImportStatement(tables, st, room);
            if insert.table !in tables then answer == Bad(UnexpectedTable)
            else if !EachOnce(ColumnsOf(tables, insert), tables[insert.table]) then answer == Bad(InvalidColumns)
            else if ParseRows(insert.body, room).Bad? then answer == Bad(ParseRows(insert.body, room).code)
            else answer == StoreRows(insert.table, ParseRows(insert.body, room).value, ColumnsOf(tables, insert), tables[insert.table])
  {
  }

  lemma RowsAnswered(table: string, rows: seq<seq<Value>>, sep: string, room: nat, columns: seq<string>, expected: seq<string>)
    requires Covers(columns, expected) && rows != [] && Printable(rows) && AllSpace(sep)
    ensures var read := ParseRows(PrintRows(rows, sep), room);
            if |rows| > room then read == Bad(InvalidSize)
            else
              && read == Fine(rows)
              && var stored := StoreRows(table, rows, columns, expected);
                 if exists k :: 0 <= k < |rows| && |rows[k]| != |columns| then stored == Bad(InvalidSize)
                 else stored.Fine? && |stored.value| == |rows|
  {
    if |rows| > room {
      TooManyRows(rows, sep, room);
    } else {
      RowsRead(rows, sep, room);
      WrongWidth(table, rows, columns, expected);
    }
  }

  /**
   * The answer to any printed INSERT: a table that is not on the list, a column list that is not each of its columns
   * once, more rows than there is room for, or a row of another width is refused, in that order, with its own code;
   * and any other is stored, one row on file for each.
   */
  lemma InsertIsAnswered(tables: Tables, h: Head, table: string, rows: seq<seq<Value>>, sep: string, room: nat)
    requires h.Valid() && LowerName(table) && AllSpace(sep) && rows != [] && Printable(rows)
    ensures var answer := ImportStatement(tables, PrintInsert(h, table, rows, sep), room);
            if table !in tables then answer == Bad(UnexpectedTable)
            else
              var columns := if h.columns == [] then tables[table] else NamesOf(h.columns);
              if !EachOnce(columns, tables[table]) then answer == Bad(InvalidColumns)
              else if |rows| > room || exists k :: 0 <= k < |rows| && |rows[k]| != |columns| then answer == Bad(InvalidSize)
              else answer.Fine? && |answer.value| == |rows|
  {
    InsertIsData(h, table, rows, sep);
    InsertParses(h, table, rows, sep);
    var insert := Insert(table, h.Names(), PrintRows(rows, sep));
    TakenApart(tables, PrintInsert(h, table, rows, sep), insert, room);
    if table in tables && EachOnce(ColumnsOf(tables, insert), tables[table]) {
      RowsAnswered(table, rows, sep, room, ColumnsOf(tables, insert), tables[table]);
    }
  }

  lemma TooLarge(s: string, sign: nat, n: nat)
    requires sign == (if s != "" && s[0] == '-' then 1 else 0) && sign <= |s|
    requires n == NumberLength(s[sign..]) && NumberOf(s[sign..][..n]) > 9_007_199_254_740_991
    ensures MatchNumber(s).None?
  {
  }

  lemma NotRead(s: string)
    requires s != "" && (IsDigit(s[0]) || s[0] == '-') && MatchNumber(s).None?
    ensures ParseValue(s).None?
  {
    BareIsNotNull(s);
  }

  lemma LargeIsNotRead(mark: string, m: nat, rest: string)
    requires mark in {"", "-"} && m > 9_007_199_254_740_991 && rest != "" && Follows(rest)
    ensures ParseValue(mark + (Decimal(m) + rest)).None?
  {
    var digits := Decimal(m);
    var t := digits + rest;
    DecimalDigits(m);
    DecimalLength(m, rest);
    assert t[..|digits|] == digits && (mark + t)[|mark|..] == t;
    assert (mark + t)[0] == if mark == "" then digits[0] else '-';
    TooLarge(mark + t, |mark|, |digits|);
    NotRead(mark + t);
  }

  /** A number that a double does not hold exactly is not read at all. */
  lemma UnsafeNumberIsRefused(n: int, rest: string)
    requires (n > 9_007_199_254_740_991 || n < -9_007_199_254_740_991) && rest != "" && Follows(rest)
    ensures ParseValue(PrintValue(Int(n)) + rest).None?
  {
    LargeIsNotRead(if n < 0 then "-" else "", if n < 0 then -n else n, rest);
    assert n >= 0 ==> "" + (Decimal(n) + rest) == Decimal(n) + rest;
    assert n < 0 ==> "-" + (Decimal(-n) + rest) == ("-" + Decimal(-n)) + rest;
  }

  // ---- a text that does not end ----------------------------------------------------------------------------

  /** Statements, each with its semicolon, and whatever text follows. */
  function DumpThen(entries: seq<Entry>, tail: string): string {
    if entries == [] then tail
    else PrintGaps(entries[0].gaps) + (entries[0].statement + (";" + DumpThen(entries[1..], tail)))
  }

  lemma {:induction false} TailDecides(entries: seq<Entry>, tail: string)
    requires forall k :: 0 <= k < |entries| ==> ValidGaps(entries[k].gaps) && Sealed(entries[k].statement)
    ensures Split(DumpThen(entries, tail), "", false) == Prepend(StatementsOf(entries), Split(tail, "", false))
    decreases |entries|
  {
    if entries == [] {
      PrependNothing(Split(tail, "", false));
    } else {
      TailDecides(entries[1..], tail);
      EntrySplits(entries[0], DumpThen(entries[1..], tail));
      PrependTwice([entries[0].statement], StatementsOf(entries[1..]), Split(tail, "", false));
    }
  }

  lemma {:induction false} QuoteStaysOpen(s: string, v: string)
    ensures Split(Doubled(s), v, true) == Bad(InvalidSql)
  {
    if s != "" {
      QuoteStaysOpen(s[1..], v + if s[0] == '\'' then "''" else [s[0]]);
      if s[0] == '\'' {
        assert Doubled(s) == "''" + Doubled(s[1..]) && Doubled(s)[2..] == Doubled(s[1..]);
      } else {
        assert Doubled(s) == [s[0]] + Doubled(s[1..]) && Doubled(s)[1..] == Doubled(s[1..]);
      }
    }
  }

  /** How a dump may fail to end: in a quoted text, in a comment, or in a statement without its semicolon. */
  datatype Tail = OpenQuote(text: string) | OpenComment(comment: string) | NoSemicolon
  {
    predicate Valid(start: string) {
      match this
      case OpenQuote(_) => true
      case OpenComment(comment) => CloseAt(comment).None?
      case NoSemicolon => start != "" && !IsSpace(start[0]) && !IsSpace(start[|start| - 1])
    }

    function Text(): string {
      match this
      case OpenQuote(text) => "'" + Doubled(text)
      case OpenComment(comment) => "/*" + comment
      case NoSemicolon => ""
    }
  }

  lemma TailIsOpen(start: string, tail: Tail)
    requires Plainly(start) && tail.Valid(start)
    ensures Split(start + tail.Text(), "", false) == Bad(InvalidSql)
  {
    PlainPasses(start, tail.Text());
    assert Split(start + tail.Text(), "", false) == Split(tail.Text(), "" + start, false);
    match tail {
      case OpenQuote(text) =>
        OpensQuote(Doubled(text), "" + start);
        QuoteStaysOpen(text, "" + start + "'");
      case OpenComment(comment) =>
        assert ("/*" + comment)[2..] == comment;
      case NoSemicolon =>
        assert "" + start == start;
    }
  }

  /** Nothing is imported of a dump that does not end, whatever statements it holds before. */
  lemma UnfinishedIsRefused(tables: Tables, entries: seq<Entry>, start: string, tail: Tail)
    requires forall k :: 0 <= k < |entries| ==> ValidGaps(entries[k].gaps) && Sealed(entries[k].statement)
    requires Plainly(start) && tail.Valid(start)
    ensures Import(tables, DumpThen(entries, start + tail.Text())) == Bad(InvalidSql)
  {
    TailIsOpen(start, tail);
    TailDecides(entries, start + tail.Text());
  }

  // ---- the whole dump --------------------------------------------------------------------------------------

  lemma RefusedBehind(tables: Tables, st: string, sts: seq<string>, room: nat, first: seq<Stored>, code: Code)
    requires ImportStatement(tables, st, room) == Fine(first) && |first| <= room
    requires ImportAll(tables, sts, Less(room, first)) == Bad(code)
    ensures ImportAll(tables, [st] + sts, room) == Bad(code)
  {
    assert ([st] + sts)[1..] == sts;
  }

  lemma ImportsFirst(tables: Tables, sts: seq<string>, room: nat) returns (first: seq<Stored>, rest: seq<Stored>)
    requires sts != [] && ImportAll(tables, sts, room).Fine?
    ensures ImportStatement(tables, sts[0], room) == Fine(first) && |first| <= room
    ensures ImportAll(tables, sts[1..], Less(room, first)) == Fine(rest) && |rest| <= Less(room, first)
    ensures ImportAll(tables, sts, room) == Fine(first + rest) && Less(Less(room, first), rest) == Less(room, first + rest)
  {
    first := ImportStatement(tables, sts[0], room).value;
    rest := ImportAll(tables, sts[1..], Less(room, first)).value;
    StatementsAreData(tables, sts[1..], Less(room, first));
  }

  lemma RefusedAtOnce(tables: Tables, st: string, more: seq<string>, room: nat, code: Code)
    requires ImportStatement(tables, st, Less(room, [])) == Bad(code)
    ensures ImportAll(tables, [st] + more, room) == Bad(code)
  {
    assert Less(room, []) == room;
  }

  lemma Joined(a: string, b: seq<string>, c: seq<string>)
    ensures ([a] + b) + c == [a] + (b + c) && ([a] + b)[1..] == b
  {
  }

  /** The first statement that is refused, in the room the others left, decides for the dump: nothing of it is stored. */
  lemma {:induction false} FirstRefusalStands(tables: Tables, before: seq<string>, stored: seq<Stored>, st: string, more: seq<string>,
                                              room: nat, code: Code)
    requires ImportAll(tables, before, room) == Fine(stored) && ImportStatement(tables, st, Less(room, stored)) == Bad(code)
    ensures ImportAll(tables, before + ([st] + more), room) == Bad(code)
    decreases |before|
  {
    if before == [] {
      RefusedAtOnce(tables, st, more, room, code);
      assert before + ([st] + more) == [st] + more;
    } else {
      var first, rest := ImportsFirst(tables, before, room);
      FirstRefusalStands(tables, before[1..], rest, st, more, Less(room, first), code);
      RefusedBehind(tables, before[0], before[1..] + ([st] + more), room, first, code);
      assert before == [before[0]] + before[1..];
      Joined(before[0], before[1..], [st] + more);
    }
  }

  lemma TooManyImport(tables: Tables, p: Printed, room: nat)
    requires Declared(tables) && p.Valid(tables) && |p.Stores()| > room
    ensures ImportStatement(tables, p.Print(tables), room) == Bad(InvalidSize)
  {
    StoredCount(p.table, p.rows);
    WrittenHolds(tables, p);
    InsertIsAnswered(tables, p.head, p.table, p.Written(tables), p.sep, room);
  }

  lemma {:induction false} TooManyStatements(tables: Tables, gaps: seq<seq<Gap>>, ps: seq<Printed>, room: nat)
    requires Declared(tables) && |gaps| == |ps| && |AllStored(ps)| > room && forall k :: 0 <= k < |ps| ==> ps[k].Valid(tables)
    ensures ImportAll(tables, StatementsOf(Entries(tables, gaps, ps)), room) == Bad(InvalidSize)
    decreases |ps|
  {
    var rows := ps[0].Stores();
    var more := StatementsOf(Entries(tables, gaps[1..], ps[1..]));
    var sts := StatementsOf(Entries(tables, gaps, ps));
    assert sts[0] == ps[0].Print(tables) && sts[1..] == more;
    if |rows| > room {
      TooManyImport(tables, ps[0], room);
    } else {
      PrintedImports(tables, ps[0], room);
      TooManyStatements(tables, gaps[1..], ps[1..], Less(room, rows));
    }
  }

  /** A printed export is imported whole if it has no more than half a million rows, and refused whole if it has more. */
  lemma ExportIsReadIff(gaps: seq<seq<Gap>>, ps: seq<Printed>, last: seq<Gap>)
    requires |gaps| == |ps| && ValidGaps(last)
    requires forall k :: 0 <= k < |ps| ==> ps[k].Valid(TABLES) && ValidGaps(gaps[k])
    ensures Import(TABLES, Dump(Entries(TABLES, gaps, ps), last))
            == if |AllStored(ps)| <= 500_000 then Fine(AllStored(ps)) else Bad(InvalidSize)
  {
    if |AllStored(ps)| <= 500_000 {
      ExportReadsBack(gaps, ps, last);
    } else {
      ImportTablesDeclared();
      EntriesHold(TABLES, gaps, ps);
      DumpSplits(Entries(TABLES, gaps, ps), last);
      TooManyStatements(TABLES, gaps, ps, 500_000);
    }
  }
}
