/**
 * Whole exports, read back: INSERTs with their table quoted or bare and their columns listed in any
 * order or not at all, transaction marks and foreign-key settings, and any comments and white space
 * between them. What the importer stores is the rows, in the order of the table's own columns.
 */
module SqlExport {
  import opened Wrappers
  import opened JsText
  import opened SqlReader
  import opened SqlRoundTrip

  // ---- names -----------------------------------------------------------------------------------------------

  predicate LowerName(s: string) {
    s != "" && forall k :: 0 <= k < |s| ==> 'a' <= s[k] <= 'z' || s[k] == '_'
  }

  /** How a name is written: bare, in double quotes, or in back quotes. */
  datatype Quote = Bare | Double | Back
  {
    function Mark(): string {
      match this
      case Bare => ""
      case Double => "\""
      case Back => "`"
    }
  }

  function PrintName(q: Quote, name: string): string { q.Mark() + (name + q.Mark()) }

  lemma {:induction false} NameEnds(name: string, rest: string)
    requires (forall k :: 0 <= k < |name| ==> IsName(name[k])) && (rest == "" || !IsName(rest[0]))
    ensures NameLength(name + rest) == |name|
  {
    if name == "" {
      assert name + rest == rest;
    } else {
      assert (name + rest)[1..] == name[1..] + rest;
      NameEnds(name[1..], rest);
    }
  }

  lemma NameParses(q: Quote, name: string, rest: string)
    requires LowerName(name) && (q.Bare? ==> rest == "" || !IsName(rest[0]))
    ensures ParseName(PrintName(q, name) + rest) == Some(Piece(name, rest))
  {
    var tail := q.Mark() + rest;
    NameEnds(name, tail);
    assert PrintName(q, name) + rest == q.Mark() + (name + tail);
    assert (name + tail)[..|name|] == name && (name + tail)[|name|..] == tail;
    if q.Bare? {
      assert q.Mark() + (name + tail) == name + tail && (name + tail)[0] == name[0];
    } else {
      assert (q.Mark() + (name + tail))[1..] == name + tail && (name + tail)[|name| + 1..] == rest;
    }
  }

  /** A name is plain for the splitter, whichever way it is written. */
  lemma NameIsPlain(q: Quote, name: string)
    requires LowerName(name)
    ensures forall k :: 0 <= k < |PrintName(q, name)| ==> PlainChar(PrintName(q, name)[k])
  {
  }

  lemma NameEnding(q: Quote, name: string)
    requires LowerName(name)
    ensures var n := PrintName(q, name); n != "" && !IsSpace(n[0]) && !IsSpace(n[|n| - 1]) && '!' <= n[0] <= '~' && n[0] != '('
  {
    var n := PrintName(q, name);
    VisibleIsNotSpace(n[0]);
    VisibleIsNotSpace(n[|n| - 1]);
  }

  lemma QuoteComesOff(q: Quote, name: string)
    requires LowerName(name)
    ensures Unquoted(PrintName(q, name)) == name
  {
    var n := PrintName(q, name);
    if !q.Bare? {
      assert n[1..] == name + q.Mark() && n[1..][..|name|] == name;
    }
  }

  // ---- column lists ----------------------------------------------------------------------------------------

  /** One column of a list, with the white space around it. */
  datatype Column = Column(quote: Quote, name: string, before: string, after: string)
  {
    predicate Valid() { LowerName(name) && AllSpace(before) && AllSpace(after) }

    function Print(): string { before + (PrintName(quote, name) + after) }
  }

  predicate ValidColumns(cs: seq<Column>) { cs != [] && forall k :: 0 <= k < |cs| ==> cs[k].Valid() }

  function PrintColumns(cs: seq<Column>): string
    requires cs != []
  {
    cs[0].Print() + if |cs| == 1 then "" else "," + PrintColumns(cs[1..])
  }

  function NamesOf(cs: seq<Column>): seq<string> {
    seq(|cs|, k requires 0 <= k < |cs| => cs[k].name)
  }

  lemma SpaceIsNot(s: string, c: char)
    requires AllSpace(s) && '!' <= c <= '~'
    ensures c !in s
  {
    VisibleIsNotSpace(c);
  }

  lemma {:induction false} IndexBehind(u: string, c: char, rest: string)
    requires c !in u && (rest == "" || rest[0] == c)
    ensures IndexOf(u + rest, c) == |u|
  {
    if u == "" {
      assert u + rest == rest;
    } else {
      assert (u + rest)[1..] == u[1..] + rest && u[0] in u && c !in u[1..];
      IndexBehind(u[1..], c, rest);
    }
  }

  lemma ColumnHasNo(col: Column, c: char)
    requires col.Valid() && (c == ',' || c == ')')
    ensures c !in col.Print()
  {
    SpaceIsNot(col.before, c);
    SpaceIsNot(col.after, c);
    assert c !in col.name;
    assert c !in PrintName(col.quote, col.name);
  }

  lemma {:induction false} DropsRight(s: string, ws: string)
    requires AllSpace(ws) && s != "" && !IsSpace(s[|s| - 1])
    ensures DropRight(s + ws) == s
    decreases |ws|
  {
    if ws == "" {
      assert s + ws == s;
      NothingToDrop(s);
    } else {
      assert (s + ws)[..|s + ws| - 1] == s + ws[..|ws| - 1];
      DropsRight(s, ws[..|ws| - 1]);
    }
  }

  lemma TrimsBoth(before: string, s: string, after: string)
    requires AllSpace(before) && AllSpace(after) && s != "" && !IsSpace(s[0]) && !IsSpace(s[|s| - 1])
    ensures Trim(before + (s + after)) == s
  {
    SkipsOver(before, s + after);
    assert (s + after)[0] == s[0];
    assert SkipSpace(s + after) == s + after;
    DropsRight(s, after);
  }

  lemma ColumnReads(col: Column)
    requires col.Valid()
    ensures Unquoted(Trim(col.Print())) == col.name
  {
    NameEnding(col.quote, col.name);
    TrimsBoth(col.before, PrintName(col.quote, col.name), col.after);
    QuoteComesOff(col.quote, col.name);
  }

  lemma ColumnsStep(s: string, n: nat, rest: string)
    requires n == IndexOf(s, ',') && (n == |s| ==> rest == "") && (n < |s| ==> rest == s[n + 1..])
    ensures ColumnNames(s) == [Unquoted(Trim(s[..n]))] + if n == |s| then [] else ColumnNames(rest)
  {
  }

  lemma NamesApart(cs: seq<Column>)
    requires cs != []
    ensures NamesOf(cs) == [cs[0].name] + NamesOf(cs[1..])
  {
  }

  lemma FirstColumn(head: string, more: string, s: string)
    requires ',' !in head && s == head + ("," + more)
    ensures IndexOf(s, ',') == |head| && s[..|head|] == head && s[|head| + 1..] == more
  {
    IndexBehind(head, ',', "," + more);
  }

  /** A printed column list reads back as its names. */
  lemma {:induction false} ColumnsRead(cs: seq<Column>)
    requires ValidColumns(cs)
    ensures ColumnNames(PrintColumns(cs)) == NamesOf(cs)
    decreases |cs|
  {
    var head, s := cs[0].Print(), PrintColumns(cs);
    ColumnHasNo(cs[0], ',');
    ColumnReads(cs[0]);
    NamesApart(cs);
    if |cs| == 1 {
      assert s == head + "" == head;
      IndexBehind(head, ',', "");
      assert s[..|head|] == head;
      ColumnsStep(s, |head|, "");
    } else {
      var more := PrintColumns(cs[1..]);
      FirstColumn(head, more, s);
      ColumnsRead(cs[1..]);
      ColumnsStep(s, |head|, more);
    }
  }

  lemma {:induction false} ColumnsHaveNoClose(cs: seq<Column>)
    requires ValidColumns(cs)
    ensures ')' !in PrintColumns(cs) && PrintColumns(cs) != "" && forall k :: 0 <= k < |PrintColumns(cs)| ==> PlainChar(PrintColumns(cs)[k])
    decreases |cs|
  {
    ColumnHasNo(cs[0], ')');
    ColumnIsPlain(cs[0]);
    if |cs| > 1 {
      ColumnsHaveNoClose(cs[1..]);
    }
  }

  lemma ColumnIsPlain(col: Column)
    requires col.Valid()
    ensures col.Print() != "" && forall k :: 0 <= k < |col.Print()| ==> PlainChar(col.Print()[k])
  {
    NameIsPlain(col.quote, col.name);
    SpaceIsPlain(col.before);
    SpaceIsPlain(col.after);
  }

  // ---- the head of an INSERT -------------------------------------------------------------------------------

  /** How an INSERT names its table and columns; `lead` and `space` are the white space the grammar asks for. */
  datatype Head = Head(lead: string, quote: Quote, gap: string, columns: seq<Column>, space: string)
  {
    predicate Valid() {
      && AllSpace(lead) && lead != "" && AllSpace(gap) && AllSpace(space) && space != ""
      && (columns != [] ==> ValidColumns(columns))
    }

    /** No list at all stands for the table's own columns. */
    function List(): string { if columns == [] then "" else gap + ("(" + (PrintColumns(columns) + ")")) }

    function Names(): Option<seq<string>> { if columns == [] then None else Some(NamesOf(columns)) }
  }

  function PrintInsert(h: Head, table: string, rows: seq<seq<Value>>, sep: string): string
    requires rows != [] && forall j :: 0 <= j < |rows| ==> rows[j] != []
  {
    "INSERT INTO" + (h.lead + (PrintName(h.quote, table) + (h.List() + (h.space + ("VALUES" + (sep + PrintRows(rows, sep)))))))
  }

  lemma {:induction false} BeginsWith(word: string, rest: string)
    requires forall k :: 0 <= k < |word| ==> Upper(word[k]) == word[k]
    ensures Begins(word + rest, word)
  {
    if word != "" {
      assert (word + rest)[1..] == word[1..] + rest;
      BeginsWith(word[1..], rest);
    }
  }

  lemma ValuesStep(table: string, columns: Option<seq<string>>, s: string, t: string, body: string)
    requires SkipSpace(s) == t && t != s && |t| > 6 && Begins(t, "VALUES") && SkipSpace(t[6..]) == body && body != ""
    ensures ParseValues(table, columns, s) == Some(Insert(table, columns, body))
  {
  }

  lemma ValuesParse(table: string, columns: Option<seq<string>>, space: string, sep: string, body: string)
    requires AllSpace(space) && space != "" && AllSpace(sep) && body != "" && body[0] == '('
    ensures ParseValues(table, columns, space + ("VALUES" + (sep + body))) == Some(Insert(table, columns, body))
  {
    var values := "VALUES" + (sep + body);
    SkipsTo(space, values);
    BeginsWith("VALUES", sep + body);
    assert values[6..] == sep + body;
    SkipsTo(sep, body);
    ValuesStep(table, columns, space + values, values, body);
  }

  lemma PlainStep(st: string, named: string, table: string, tail: string)
    requires |st| >= 11 && Begins(st, "INSERT INTO") && SkipSpace(st[11..]) == named && named != st[11..]
    requires ParseName(named) == Some(Piece(table, tail)) && SkipSpace(tail) != "" && SkipSpace(tail)[0] != '('
    ensures ParseInsert(st) == ParseValues(table, None, tail)
  {
  }

  lemma ListStep(st: string, named: string, table: string, tail: string, list: string, values: string)
    requires |st| >= 11 && Begins(st, "INSERT INTO") && SkipSpace(st[11..]) == named && named != st[11..]
    requires ParseName(named) == Some(Piece(table, tail)) && SkipSpace(tail) == "(" + (list + (")" + values))
    requires list != "" && ')' !in list
    ensures ParseInsert(st) == ParseValues(table, Some(ColumnNames(list)), values)
  {
    var t := "(" + (list + (")" + values));
    assert t[1..] == list + (")" + values);
    IndexBehind(list, ')', ")" + values);
    assert IndexOf(t, ')') == 1 + |list|;
    assert t[1..1 + |list|] == list && t[2 + |list|..] == values;
  }

  lemma HeadStarts(h: Head, table: string, tail: string)
    requires h.Valid() && LowerName(table) && (h.quote.Bare? ==> tail != "" && !IsName(tail[0]))
    ensures var named := PrintName(h.quote, table) + tail;
            var st := "INSERT INTO" + (h.lead + named);
            && |st| >= 11 && Begins(st, "INSERT INTO") && SkipSpace(st[11..]) == named && named != st[11..]
            && ParseName(named) == Some(Piece(table, tail))
  {
    var named := PrintName(h.quote, table) + tail;
    var st := "INSERT INTO" + (h.lead + named);
    assert st[11..] == h.lead + named;
    BeginsWith("INSERT INTO", h.lead + named);
    NameEnding(h.quote, table);
    assert named[0] == PrintName(h.quote, table)[0];
    SkipsTo(h.lead, named);
    NameParses(h.quote, table, tail);
  }

  lemma SpaceIsNoName(s: string)
    requires AllSpace(s) && s != ""
    ensures !IsName(s[0])
  {
    if IsName(s[0]) {
      VisibleIsNotSpace(s[0]);
    }
  }

  lemma ListShape(h: Head, values: string)
    requires h.columns != []
    ensures h.List() + values == h.gap + ("(" + (PrintColumns(h.columns) + (")" + values)))
  {
  }

  lemma NoList(h: Head, values: string)
    requires h.columns == []
    ensures h.List() + values == values
  {
  }

  /** A printed INSERT parses to its table, its columns and its rows. */
  lemma InsertParses(h: Head, table: string, rows: seq<seq<Value>>, sep: string)
    requires h.Valid() && LowerName(table) && AllSpace(sep) && rows != [] && forall j :: 0 <= j < |rows| ==> rows[j] != []
    ensures ParseInsert(PrintInsert(h, table, rows, sep)) == Some(Insert(table, h.Names(), PrintRows(rows, sep)))
  {
    var body := PrintRows(rows, sep);
    var values := h.space + ("VALUES" + (sep + body));
    var tail := h.List() + values;
    var named := PrintName(h.quote, table) + tail;
    PrintedRows(rows, sep);
    ValuesParse(table, h.Names(), h.space, sep, body);
    TailStarts(h, values);
    HeadStarts(h, table, tail);
    if h.columns == [] {
      NoList(h, values);
      SkipsTo(h.space, "VALUES" + (sep + body));
      PlainStep(PrintInsert(h, table, rows, sep), named, table, tail);
    } else {
      var list := PrintColumns(h.columns);
      ListShape(h, values);
      SkipsTo(h.gap, "(" + (list + (")" + values)));
      ColumnsHaveNoClose(h.columns);
      ColumnsRead(h.columns);
      ListStep(PrintInsert(h, table, rows, sep), named, table, tail, list, values);
    }
  }

  lemma TailStarts(h: Head, values: string)
    requires h.Valid() && values != "" && values[0] == h.space[0]
    ensures var tail := h.List() + values; tail != "" && !IsName(tail[0])
  {
    SpaceIsNoName(h.space);
    if h.columns != [] && h.gap != "" {
      SpaceIsNoName(h.gap);
    }
  }

  // ---- one statement for the splitter ----------------------------------------------------------------------

  lemma {:induction false} RowsEnd(rows: seq<seq<Value>>, sep: string)
    requires rows != [] && forall j :: 0 <= j < |rows| ==> rows[j] != []
    ensures var s := PrintRows(rows, sep); s != "" && s[|s| - 1] == ')'
    decreases |rows|
  {
    PrintedRows(rows, sep);
    CellsEnd(rows[0], sep);
    if |rows| > 1 {
      RowsEnd(rows[1..], sep);
    }
  }

  lemma {:induction false} CellsEnd(row: seq<Value>, sep: string)
    requires row != []
    ensures var s := PrintCells(row, sep); s != "" && s[|s| - 1] == ')'
    decreases |row|
  {
    if |row| > 1 {
      CellsEnd(row[1..], sep);
    }
  }

  lemma ListIsPlain(h: Head)
    requires h.Valid()
    ensures forall k :: 0 <= k < |h.List()| ==> PlainChar(h.List()[k])
  {
    if h.columns != [] {
      ColumnsHaveNoClose(h.columns);
      SpaceIsPlain(h.gap);
    }
  }

  predicate Plainly(x: string) { forall k :: 0 <= k < |x| ==> PlainChar(x[k]) }

  lemma PlainThen(x: string, y: string, rest: string)
    requires Plainly(x) && Passes(y, rest)
    ensures Passes(x + y, rest)
  {
    PlainPasses(x, y + rest);
    PassesTwo(x, y, rest);
  }

  lemma ValuesPass(rows: seq<seq<Value>>, sep: string, space: string, rest: string)
    requires AllSpace(sep) && AllSpace(space) && rows != [] && forall j :: 0 <= j < |rows| ==> rows[j] != []
    ensures Passes(space + ("VALUES" + (sep + PrintRows(rows, sep))), rest)
  {
    var body := PrintRows(rows, sep);
    SpaceIsPlain(sep);
    SpaceIsPlain(space);
    RowsPass(rows, sep, rest);
    PlainThen(sep, body, rest);
    PlainThen("VALUES", sep + body, rest);
    PlainThen(space, "VALUES" + (sep + body), rest);
  }

  lemma FourThen(a: string, b: string, c: string, d: string, values: string, rest: string)
    requires Plainly(a) && Plainly(b) && Plainly(c) && Plainly(d) && Passes(values, rest)
    ensures Passes(a + (b + (c + (d + values))), rest)
  {
    PlainThen(d, values, rest);
    PlainThen(c, d + values, rest);
    PlainThen(b, c + (d + values), rest);
    PlainThen(a, b + (c + (d + values)), rest);
  }

  lemma HeadPasses(h: Head, table: string, values: string, rest: string)
    requires h.Valid() && LowerName(table) && Passes(values, rest)
    ensures Passes("INSERT INTO" + (h.lead + (PrintName(h.quote, table) + (h.List() + values))), rest)
  {
    ListIsPlain(h);
    NameIsPlain(h.quote, table);
    SpaceIsPlain(h.lead);
    FourThen("INSERT INTO", h.lead, PrintName(h.quote, table), h.List(), values, rest);
  }

  lemma InsertPasses(h: Head, table: string, rows: seq<seq<Value>>, sep: string, rest: string)
    requires h.Valid() && LowerName(table) && AllSpace(sep) && rows != [] && forall j :: 0 <= j < |rows| ==> rows[j] != []
    ensures Passes(PrintInsert(h, table, rows, sep), rest)
  {
    ValuesPass(rows, sep, h.space, rest);
    HeadPasses(h, table, h.space + ("VALUES" + (sep + PrintRows(rows, sep))), rest);
  }

  lemma {:induction false} LastOf(x: string, y: string)
    requires y != ""
    ensures (x + y) != "" && (x + y)[|x + y| - 1] == y[|y| - 1]
  {
  }

  lemma InsertEnds(h: Head, table: string, rows: seq<seq<Value>>, sep: string)
    requires rows != [] && forall j :: 0 <= j < |rows| ==> rows[j] != []
    ensures var st := PrintInsert(h, table, rows, sep); st != "" && st[0] == 'I' && st[|st| - 1] == ')'
  {
    var body := PrintRows(rows, sep);
    RowsEnd(rows, sep);
    var values := "VALUES" + (sep + body);
    LastOf(sep, body);
    LastOf("VALUES", sep + body);
    LastOf(h.space, values);
    LastOf(h.List(), h.space + values);
    LastOf(PrintName(h.quote, table), h.List() + (h.space + values));
    LastOf(h.lead, PrintName(h.quote, table) + (h.List() + (h.space + values)));
    LastOf("INSERT INTO", h.lead + (PrintName(h.quote, table) + (h.List() + (h.space + values))));
  }

  /** Semicolons, quotes and comment marks inside the texts of an INSERT leave it one statement. */
  lemma InsertIsSealed(h: Head, table: string, rows: seq<seq<Value>>, sep: string)
    requires h.Valid() && LowerName(table) && AllSpace(sep) && rows != [] && forall j :: 0 <= j < |rows| ==> rows[j] != []
    ensures Sealed(PrintInsert(h, table, rows, sep))
  {
    var st := PrintInsert(h, table, rows, sep);
    InsertEnds(h, table, rows, sep);
    VisibleIsNotSpace('I');
    VisibleIsNotSpace(')');
    forall rest: string
      ensures Passes(st, ";" + rest)
    {
      InsertPasses(h, table, rows, sep, ";" + rest);
    }
  }

  // ---- settings and marks ----------------------------------------------------------------------------------

  function PrintSetting(name: string, before: string, after: string, word: string): string {
    "PRAGMA " + (name + (before + ("=" + (after + word))))
  }

  predicate ValidSetting(name: string, before: string, after: string, word: string) {
    name in {"defer_foreign_keys", "foreign_keys"} && AllSpace(before) && AllSpace(after) && SwitchWord(word)
  }

  lemma {:induction false} UpperStays(s: string)
    requires forall k :: 0 <= k < |s| ==> Upper(s[k]) == s[k]
    ensures UpperAll(s) == s
  {
    if s != "" {
      UpperStays(s[1..]);
    }
  }

  lemma {:induction false} UpperParts(a: string, b: string)
    ensures UpperAll(a + b) == UpperAll(a) + UpperAll(b) && |UpperAll(a)| == |a|
  {
    if a == "" {
      assert a + b == b;
    } else {
      assert (a + b)[1..] == a[1..] + b;
      UpperParts(a[1..], b);
    }
  }

  lemma SpaceIsUpper(ws: string)
    requires AllSpace(ws)
    ensures UpperAll(ws) == ws
  {
    forall k | 0 <= k < |ws|
      ensures Upper(ws[k]) == ws[k]
    {
      if 'a' <= ws[k] <= 'z' {
        VisibleIsNotSpace(ws[k]);
      }
    }
    UpperStays(ws);
  }

  lemma SettingReads(name: string, before: string, after: string, word: string)
    requires AllSpace(before) && AllSpace(after) && SwitchWord(word)
    ensures Setting(name + (before + ("=" + (after + word))), name)
  {
    var s := name + (before + ("=" + (after + word)));
    assert s[..|name|] == name && s[|name|..] == before + ("=" + (after + word));
    SkipsTo(before, "=" + (after + word));
    assert ("=" + (after + word))[1..] == after + word;
    SkipsTo(after, word);
  }

  predicate CapitalOrDigit(c: char) { 'A' <= c <= 'Z' || '0' <= c <= '9' }

  lemma WordShape(word: string)
    requires SwitchWord(word)
    ensures word != "" && forall k :: 0 <= k < |word| ==> CapitalOrDigit(word[k])
  {
  }

  lemma WordIsUpper(word: string)
    requires word != "" && forall k :: 0 <= k < |word| ==> CapitalOrDigit(word[k])
    ensures UpperAll(word) == word
  {
    UpperStays(word);
  }

  lemma {:induction false} UpperIs(s: string, t: string)
    requires |t| == |s| && forall k :: 0 <= k < |s| ==> t[k] == Upper(s[k])
    ensures UpperAll(s) == t
  {
    if s != "" {
      UpperIs(s[1..], t[1..]);
    }
  }

  function UpperName(name: string): string {
    if name == "foreign_keys" then "FOREIGN_KEYS" else "DEFER_FOREIGN_KEYS"
  }

  lemma LettersUpper(name: string, upper: string)
    requires (name == "defer_foreign_keys" && upper == "DEFER_FOREIGN_KEYS") || (name == "foreign_keys" && upper == "FOREIGN_KEYS")
    ensures |upper| == |name| && forall k :: 0 <= k < |name| ==> upper[k] == Upper(name[k])
  {
  }

  lemma NameUpper(name: string, upper: string)
    requires |upper| == |name| && forall k :: 0 <= k < |name| ==> upper[k] == Upper(name[k])
    ensures UpperAll(name) == upper
  {
    UpperIs(name, upper);
  }

  lemma TwoUpper(a: string, b: string, x: string, y: string)
    requires UpperAll(a) == x && UpperAll(b) == y
    ensures UpperAll(a + b) == x + y
  {
    UpperParts(a, b);
  }

  lemma SettingUpper(name: string, upper: string, before: string, after: string, word: string)
    requires UpperAll(name) == upper && UpperAll(before) == before && UpperAll(after) == after && UpperAll(word) == word
    ensures UpperAll(PrintSetting(name, before, after, word)) == PrintSetting(upper, before, after, word)
  {
    var t1 := after + word;
    TwoUpper(after, word, after, word);
    UpperIs("=", "=");
    TwoUpper("=", t1, "=", t1);
    var t2 := "=" + t1;
    TwoUpper(before, t2, before, t2);
    var t3 := before + t2;
    TwoUpper(name, t3, upper, t3);
    UpperIs("PRAGMA ", "PRAGMA ");
    TwoUpper("PRAGMA ", name + t3, "PRAGMA ", upper + t3);
  }

  lemma SettingIsSkipped(name: string, before: string, after: string, word: string)
    requires ValidSetting(name, before, after, word)
    ensures Skipped(PrintSetting(name, before, after, word))
  {
    LettersUpper(name, UpperName(name));
    NameUpper(name, UpperName(name));
    SpaceIsUpper(before);
    SpaceIsUpper(after);
    WordShape(word);
    WordIsUpper(word);
    SettingUpper(name, UpperName(name), before, after, word);
    SettingSkips(name, before, after, word);
  }

  lemma SettingSkips(name: string, before: string, after: string, word: string)
    requires ValidSetting(name, before, after, word)
    requires UpperAll(PrintSetting(name, before, after, word)) == PrintSetting(UpperName(name), before, after, word)
    ensures Skipped(PrintSetting(name, before, after, word))
  {
    var u := PrintSetting(UpperName(name), before, after, word);
    var tail := UpperName(name) + (before + ("=" + (after + word)));
    BeginsWith("PRAGMA ", tail);
    assert u == "PRAGMA " + tail && u[7..] == tail;
    SettingReads(UpperName(name), before, after, word);
  }

  lemma SettingPasses(name: string, before: string, after: string, word: string, rest: string)
    requires ValidSetting(name, before, after, word)
    ensures Passes(PrintSetting(name, before, after, word), rest)
  {
    var t1 := after + word;
    var t2 := "=" + t1;
    var t3 := before + t2;
    WordShape(word);
    SpaceIsPlain(before);
    SpaceIsPlain(after);
    SettingNamePlain(name);
    PlainPasses(word, rest);
    PlainThen(after, word, rest);
    PlainThen("=", t1, rest);
    PlainThen(before, t2, rest);
    PlainThen(name, t3, rest);
    PlainThen("PRAGMA ", name + t3, rest);
  }

  lemma SettingEnds(name: string, before: string, after: string, word: string)
    requires word != ""
    ensures var st := PrintSetting(name, before, after, word); st != "" && st[0] == 'P' && st[|st| - 1] == word[|word| - 1]
  {
    var t1 := after + word;
    var t2 := "=" + t1;
    var t3 := before + t2;
    LastOf(after, word);
    LastOf("=", t1);
    LastOf(before, t2);
    LastOf(name, t3);
    LastOf("PRAGMA ", name + t3);
  }

  lemma SettingIsSealed(name: string, before: string, after: string, word: string)
    requires ValidSetting(name, before, after, word)
    ensures Sealed(PrintSetting(name, before, after, word))
  {
    var st := PrintSetting(name, before, after, word);
    WordShape(word);
    SettingEnds(name, before, after, word);
    VisibleIsNotSpace('P');
    assert CapitalOrDigit(word[|word| - 1]);
    VisibleIsNotSpace(word[|word| - 1]);
    forall rest: string
      ensures Passes(st, ";" + rest)
    {
      SettingPasses(name, before, after, word, ";" + rest);
    }
  }

  lemma SettingNamePlain(name: string)
    requires name in {"defer_foreign_keys", "foreign_keys"}
    ensures forall k :: 0 <= k < |name| ==> PlainChar(name[k])
  {
  }

  lemma MarkIsSkipped(st: string)
    requires (st == "BEGIN TRANSACTION" || st == "COMMIT") && UpperAll(st) == st
    ensures Skipped(st)
  {
  }

  lemma MarkIsUpper(st: string)
    requires st == "BEGIN TRANSACTION" || st == "COMMIT"
    ensures UpperAll(st) == st
  {
    assert forall k :: 0 <= k < |st| ==> st[k] == ' ' || 'A' <= st[k] <= 'Z';
    UpperStays(st);
  }

  lemma MarkIsSealed(st: string)
    requires st == "BEGIN TRANSACTION" || st == "COMMIT"
    ensures Sealed(st)
  {
    VisibleIsNotSpace(st[0]);
    VisibleIsNotSpace(st[|st| - 1]);
    forall rest: string
      ensures Passes(st, ";" + rest)
    {
      PlainPasses(st, ";" + rest);
    }
  }

  // ---- rows under a column list ----------------------------------------------------------------------------

  /** A row of the table, in the order of a column list. */
  function Permuted(row: seq<Value>, columns: seq<string>, expected: seq<string>): seq<Value>
    requires Covers(columns, expected) && |row| == |expected|
  {
    seq(|columns|, j requires 0 <= j < |columns| => row[PositionOf(expected, columns[j])])
  }

  function PermutedRows(rows: seq<seq<Value>>, columns: seq<string>, expected: seq<string>): seq<seq<Value>>
    requires Covers(columns, expected) && forall k :: 0 <= k < |rows| ==> |rows[k]| == |expected|
  {
    seq(|rows|, k requires 0 <= k < |rows| => Permuted(rows[k], columns, expected))
  }

  lemma PositionIs(columns: seq<string>, j: nat)
    requires j < |columns| && forall i, k :: 0 <= i < k < |columns| ==> columns[i] != columns[k]
    ensures PositionOf(columns, columns[j]) == j
  {
    var n := PositionOf(columns, columns[j]);
    assert n < |columns| && columns[n] == columns[j];
  }

  /** Storing a row restores the table's own order. */
  lemma ArrangeUndoes(row: seq<Value>, columns: seq<string>, expected: seq<string>)
    requires Covers(columns, expected) && Covers(expected, expected) && |row| == |expected|
    ensures Arrange(Permuted(row, columns, expected), columns, expected) == row
  {
    forall j | 0 <= j < |expected|
      ensures Arrange(Permuted(row, columns, expected), columns, expected)[j] == row[j]
    {
      var n := PositionOf(columns, expected[j]);
      assert columns[n] == expected[j];
      PositionIs(expected, j);
    }
  }

  function StoredOf(table: string, rows: seq<seq<Value>>): seq<Stored> {
    if rows == [] then [] else [Stored(table, rows[0])] + StoredOf(table, rows[1..])
  }

  lemma {:induction false} StoredCount(table: string, rows: seq<seq<Value>>)
    ensures |StoredOf(table, rows)| == |rows|
  {
    if rows != [] {
      StoredCount(table, rows[1..]);
    }
  }

  lemma {:induction false} RowsStore(table: string, rows: seq<seq<Value>>, columns: seq<string>, expected: seq<string>)
    requires Covers(columns, expected) && Covers(expected, expected) && forall k :: 0 <= k < |rows| ==> |rows[k]| == |expected|
    ensures StoreRows(table, PermutedRows(rows, columns, expected), columns, expected) == Fine(StoredOf(table, rows))
  {
    var ps := PermutedRows(rows, columns, expected);
    if rows != [] {
      assert ps[1..] == PermutedRows(rows[1..], columns, expected);
      RowsStore(table, rows[1..], columns, expected);
      ArrangeUndoes(rows[0], columns, expected);
    }
  }

  // ---- reading an export back ------------------------------------------------------------------------------

  /**
   * A statement of a printed export: the rows of one INSERT, in the table's own column order, a foreign-key
   * setting, or a transaction mark.
   */
  datatype Printed =
    | Rows(head: Head, table: string, rows: seq<seq<Value>>, sep: string)
    | Pragma(name: string, before: string, after: string, word: string)
    | Begin
    | Commit
  {
    function Columns(tables: Tables): seq<string>
      requires Rows? ==> table in tables
    {
      if Rows? then (if head.columns == [] then tables[table] else NamesOf(head.columns)) else []
    }

    predicate Valid(tables: Tables) {
      match this
      case Rows(head, table, rows, sep) =>
        && table in tables && head.Valid() && Covers(Columns(tables), tables[table])
        && AllSpace(sep) && rows != [] && Printable(rows)
        && forall j :: 0 <= j < |rows| ==> rows[j] != [] && |rows[j]| == |tables[table]|
      case Pragma(name, before, after, word) => ValidSetting(name, before, after, word)
      case _ => true
    }

    /** The rows as they are written, under the column list. */
    function Written(tables: Tables): seq<seq<Value>>
      requires Rows? && Valid(tables)
    {
      PermutedRows(rows, Columns(tables), tables[table])
    }

    function Print(tables: Tables): string
      requires Valid(tables)
    {
      match this
      case Rows(head, table, rows, sep) => PrintInsert(head, table, Written(tables), sep)
      case Pragma(name, before, after, word) => PrintSetting(name, before, after, word)
      case Begin => "BEGIN TRANSACTION"
      case Commit => "COMMIT"
    }

    function Stores(): seq<Stored> { if Rows? then StoredOf(table, rows) else [] }
  }

  function AllStored(ps: seq<Printed>): seq<Stored> {
    if ps == [] then [] else ps[0].Stores() + AllStored(ps[1..])
  }

  /** Tables declared as the importer's are: lower-case names, no column twice. */
  ghost predicate Declared(tables: Tables) {
    forall table :: table in tables ==> LowerName(table) && Covers(tables[table], tables[table])
  }

  lemma ImportTablesDeclared()
    ensures Declared(TABLES)
  {
    forall table | table in TABLES
      ensures LowerName(table) && Covers(TABLES[table], TABLES[table])
    {
      assert table in {"arcade_engagement_visitors", "arcade_engagement_events", "arcade_engagement_daily", "arcade_engagement_sources"};
      DistinctColumns(table);
    }
  }

  lemma DistinctColumns(table: string)
    requires table in TABLES
    ensures forall j, k :: 0 <= j < k < |TABLES[table]| ==> TABLES[table][j] != TABLES[table][k]
  {
  }

  lemma WrittenHolds(tables: Tables, p: Printed)
    requires p.Rows? && p.Valid(tables)
    ensures var rows := p.Written(tables);
            && |rows| == |p.rows| && rows != [] && Printable(rows) && (forall j :: 0 <= j < |rows| ==> rows[j] != [])
  {
    var rows, columns := p.Written(tables), p.Columns(tables);
    forall j, k | 0 <= j < |rows| && 0 <= k < |rows[j]|
      ensures Safe(rows[j][k])
    {
      assert rows[j][k] == p.rows[j][PositionOf(tables[p.table], columns[k])];
    }
  }

  lemma InsertIsData(h: Head, table: string, rows: seq<seq<Value>>, sep: string)
    requires rows != [] && forall j :: 0 <= j < |rows| ==> rows[j] != []
    ensures !Skipped(PrintInsert(h, table, rows, sep))
  {
    var st := PrintInsert(h, table, rows, sep);
    var u := UpperAll(st);
    assert u[0] == Upper(st[0]) == 'I';
  }

  lemma InsertImports(tables: Tables, st: string, insert: Insert, columns: seq<string>, rows: seq<seq<Value>>,
                      stored: seq<Stored>, room: nat)
    requires !Skipped(st) && ParseInsert(st) == Some(insert) && insert.table in tables
    requires columns == if insert.columns.Some? then insert.columns.value else tables[insert.table]
    requires Covers(columns, tables[insert.table]) && ParseRows(insert.body, room) == Fine(rows)
    requires StoreRows(insert.table, rows, columns, tables[insert.table]) == Fine(stored)
    ensures ImportStatement(tables, st, room) == Fine(stored)
  {
  }

  lemma RowsImport(tables: Tables, p: Printed, room: nat)
    requires Declared(tables) && p.Rows? && p.Valid(tables) && |p.rows| <= room
    ensures ImportStatement(tables, p.Print(tables), room) == Fine(p.Stores())
  {
    var rows, columns := p.Written(tables), p.Columns(tables);
    WrittenHolds(tables, p);
    InsertIsData(p.head, p.table, rows, p.sep);
    InsertParses(p.head, p.table, rows, p.sep);
    RowsRead(rows, p.sep, room);
    RowsStore(p.table, p.rows, columns, tables[p.table]);
    InsertImports(tables, p.Print(tables), Insert(p.table, p.head.Names(), PrintRows(rows, p.sep)), columns, rows, p.Stores(), room);
  }

  lemma SkippedImports(tables: Tables, st: string, room: nat)
    requires Skipped(st)
    ensures ImportStatement(tables, st, room) == Fine([])
  {
  }

  lemma PrintedImports(tables: Tables, p: Printed, room: nat)
    requires Declared(tables) && p.Valid(tables) && |p.Stores()| <= room
    ensures ImportStatement(tables, p.Print(tables), room) == Fine(p.Stores())
  {
    if p.Rows? {
      StoredCount(p.table, p.rows);
      RowsImport(tables, p, room);
    } else {
      if p.Pragma? {
        SettingIsSkipped(p.name, p.before, p.after, p.word);
      } else {
        MarkIsUpper(p.Print(tables));
        MarkIsSkipped(p.Print(tables));
      }
      SkippedImports(tables, p.Print(tables), room);
    }
  }

  lemma PrintedIsSealed(tables: Tables, p: Printed)
    requires Declared(tables) && p.Valid(tables)
    ensures Sealed(p.Print(tables))
  {
    if p.Rows? {
      WrittenHolds(tables, p);
      InsertIsSealed(p.head, p.table, p.Written(tables), p.sep);
    } else if p.Pragma? {
      SettingIsSealed(p.name, p.before, p.after, p.word);
    } else {
      MarkIsSealed(p.Print(tables));
    }
  }

  /** The printed statements with the gaps before each. */
  function Entries(tables: Tables, gaps: seq<seq<Gap>>, ps: seq<Printed>): seq<Entry>
    requires |gaps| == |ps| && forall k :: 0 <= k < |ps| ==> ps[k].Valid(tables)
  {
    if ps == [] then []
    else
      assert ps[0].Valid(tables);
      [Entry(gaps[0], ps[0].Print(tables))] + Entries(tables, gaps[1..], ps[1..])
  }

  lemma {:induction false} EntriesHold(tables: Tables, gaps: seq<seq<Gap>>, ps: seq<Printed>)
    requires Declared(tables) && |gaps| == |ps| && forall k :: 0 <= k < |ps| ==> ps[k].Valid(tables) && ValidGaps(gaps[k])
    ensures var es := Entries(tables, gaps, ps);
            |es| == |ps| && forall k :: 0 <= k < |es| ==> ValidGaps(es[k].gaps) && Sealed(es[k].statement)
  {
    if ps != [] {
      PrintedIsSealed(tables, ps[0]);
      EntriesHold(tables, gaps[1..], ps[1..]);
    }
  }

  lemma ImportStep(tables: Tables, sts: seq<string>, room: nat, rows: seq<Stored>, more: seq<Stored>)
    requires sts != [] && ImportStatement(tables, sts[0], room) == Fine(rows) && |rows| <= room
    requires ImportAll(tables, sts[1..], Less(room, rows)) == Fine(more)
    ensures ImportAll(tables, sts, room) == Fine(rows + more)
  {
  }

  lemma {:induction false} StatementsImport(tables: Tables, gaps: seq<seq<Gap>>, ps: seq<Printed>, room: nat)
    requires Declared(tables) && |gaps| == |ps| && |AllStored(ps)| <= room && forall k :: 0 <= k < |ps| ==> ps[k].Valid(tables)
    ensures ImportAll(tables, StatementsOf(Entries(tables, gaps, ps)), room) == Fine(AllStored(ps))
    decreases |ps|
  {
    if ps != [] {
      var rows := ps[0].Stores();
      var more := StatementsOf(Entries(tables, gaps[1..], ps[1..]));
      var sts := [ps[0].Print(tables)] + more;
      PrintedImports(tables, ps[0], room);
      StatementsImport(tables, gaps[1..], ps[1..], Less(room, rows));
      assert sts[1..] == more && StatementsOf(Entries(tables, gaps, ps)) == sts;
      ImportStep(tables, sts, room, rows, AllStored(ps[1..]));
    }
  }

  /**
   * Reading a printed export returns its rows: for any texts, safe integers and NULLs, any white
   * space in the statements, and any comments and white space between them.
   */
  lemma ExportReadsBack(gaps: seq<seq<Gap>>, ps: seq<Printed>, last: seq<Gap>)
    requires |gaps| == |ps| && ValidGaps(last) && |AllStored(ps)| <= MAX_IMPORT_ROWS
    requires forall k :: 0 <= k < |ps| ==> ps[k].Valid(TABLES) && ValidGaps(gaps[k])
    ensures Import(TABLES, Dump(Entries(TABLES, gaps, ps), last)) == Fine(AllStored(ps))
  {
    ImportTablesDeclared();
    ReadsBack(TABLES, gaps, ps, last);
  }

  lemma ReadsBack(tables: Tables, gaps: seq<seq<Gap>>, ps: seq<Printed>, last: seq<Gap>)
    requires Declared(tables) && |gaps| == |ps| && ValidGaps(last) && |AllStored(ps)| <= MAX_IMPORT_ROWS
    requires forall k :: 0 <= k < |ps| ==> ps[k].Valid(tables) && ValidGaps(gaps[k])
    ensures Import(tables, Dump(Entries(tables, gaps, ps), last)) == Fine(AllStored(ps))
  {
    EntriesHold(tables, gaps, ps);
    DumpSplits(Entries(tables, gaps, ps), last);
    StatementsImport(tables, gaps, ps, MAX_IMPORT_ROWS);
  }

  // ---- the shape an export of the database has -------------------------------------------------------------

  /** A quoted table, no column list, no white space but the single spaces of the grammar. */
  const EXPORT_HEAD := Head(" ", Double, "", [], " ")

  lemma {:induction false} OwnOrder(row: seq<Value>, expected: seq<string>)
    requires Covers(expected, expected) && |row| == |expected|
    ensures Permuted(row, expected, expected) == row
  {
    forall j | 0 <= j < |expected|
      ensures Permuted(row, expected, expected)[j] == row[j]
    {
      PositionIs(expected, j);
    }
  }

  /** The exporter's two kinds of statement are among those that read back. */
  lemma ExportedShapes(table: string, rows: seq<seq<Value>>)
    requires table in TABLES && rows != [] && Printable(rows)
    requires forall j :: 0 <= j < |rows| ==> |rows[j]| == |TABLES[table]| && rows[j] != []
    ensures var p, setting := Rows(EXPORT_HEAD, table, rows, ""), Pragma("defer_foreign_keys", "", "", "TRUE");
            && p.Valid(TABLES) && setting.Valid(TABLES)
            && setting.Print(TABLES) == "PRAGMA defer_foreign_keys=TRUE"
            && p.Print(TABLES) == "INSERT INTO \"" + (table + ("\" VALUES" + PrintRows(rows, "")))
  {
    ImportTablesDeclared();
    SpaceIsSpace();
    var p, setting := Rows(EXPORT_HEAD, table, rows, ""), Pragma("defer_foreign_keys", "", "", "TRUE");
    forall k | 0 <= k < |rows|
      ensures p.Written(TABLES)[k] == rows[k]
    {
      OwnOrder(rows[k], TABLES[table]);
    }
    assert p.Written(TABLES) == rows;
    ExportedInsert(table, PrintRows(rows, ""));
    assert setting.Print(TABLES) == "PRAGMA " + ("defer_foreign_keys" + ("" + ("=" + ("" + "TRUE"))));
    ExportedSetting();
  }

  lemma ExportedInsert(table: string, body: string)
    ensures "INSERT INTO" + (" " + (PrintName(Double, table) + ("" + (" " + ("VALUES" + ("" + body))))))
            == "INSERT INTO \"" + (table + ("\" VALUES" + body))
  {
  }

  lemma ExportedSetting()
    ensures "PRAGMA " + ("defer_foreign_keys" + ("" + ("=" + ("" + "TRUE")))) == "PRAGMA defer_foreign_keys=TRUE"
  {
  }
}
