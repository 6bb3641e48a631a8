/**
 * An export printed the way a dump is, read back: the quote-doubling printer, the comments and
 * white space it may leave between statements, and the reader that undoes all of it.
 */
module SqlRoundTrip {
  import opened Wrappers
  import opened JsText
  import opened SqlReader

  // ---- printing ---------------------------------------------------------------------------------

  function Digit(d: nat): char
    requires d < 10
  {
    ('0' as int + d) as char
  }

  function Decimal(n: nat): string {
    if n < 10 then [Digit(n)] else Decimal(n / 10) + [Digit(n % 10)]
  }

  function Doubled(s: string): string {
    if s == "" then "" else (if s[0] == '\'' then "''" else [s[0]]) + Doubled(s[1..])
  }

  function PrintValue(v: Value): string {
    match v
    case Null => "NULL"
    case Int(n) => if n < 0 then "-" + Decimal(-n) else Decimal(n)
    case Text(s) => "'" + Doubled(s) + "'"
  }

  predicate Safe(v: Value) { v.Int? ==> -MAX_SAFE <= v.n <= MAX_SAFE }

  /** Rows a dump can hold: none of them empty, every number a safe integer. */
  predicate Printable(rows: seq<seq<Value>>) {
    forall j :: 0 <= j < |rows| ==> rows[j] != [] && forall k :: 0 <= k < |rows[j]| ==> Safe(rows[j][k])
  }

  /** The cells after a row's opening parenthesis, with white space `sep` wherever the grammar allows it. */
  function PrintCells(row: seq<Value>, sep: string): string
    requires row != []
  {
    sep + (PrintValue(row[0]) + (sep + if |row| == 1 then ")" else "," + PrintCells(row[1..], sep)))
  }

  function PrintRows(rows: seq<seq<Value>>, sep: string): string
    requires rows != [] && forall j :: 0 <= j < |rows| ==> rows[j] != []
  {
    "(" + (PrintCells(rows[0], sep) + if |rows| == 1 then "" else sep + ("," + (sep + PrintRows(rows[1..], sep))))
  }

  // ---- white space -----------------------------------------------------------------------------------

  lemma {:induction false} SkipsOver(sep: string, rest: string)
    requires AllSpace(sep)
    ensures SkipSpace(sep + rest) == SkipSpace(rest)
  {
    if sep == "" {
      assert sep + rest == rest;
    } else {
      assert (sep + rest)[1..] == sep[1..] + rest;
      SkipsOver(sep[1..], rest);
    }
  }

  /** After optional white space, a visible character is where reading goes on. */
  lemma SkipsTo(sep: string, rest: string)
    requires AllSpace(sep) && rest != "" && '!' <= rest[0] <= '~'
    ensures SkipSpace(sep + rest) == rest && SkipSpace(rest) == rest
  {
    SkipsOver(sep, rest);
    VisibleIsNotSpace(rest[0]);
  }

  // ---- a text literal -----------------------------------------------------------------------------------

  lemma {:induction false} TextReads(s: string, rest: string)
    requires rest == "" || rest[0] != '\''
    ensures ParseText(Doubled(s) + ("'" + rest)) == Some(Piece(s, rest))
  {
    var tail := "'" + rest;
    if s == "" {
      assert Doubled(s) + tail == tail && tail[1..] == rest;
    } else {
      TextReads(s[1..], rest);
      var more := Doubled(s[1..]) + tail;
      assert s == [s[0]] + s[1..];
      if s[0] == '\'' {
        assert Doubled(s) + tail == "''" + more && ("''" + more)[2..] == more;
      } else {
        assert Doubled(s) + tail == [s[0]] + more && ([s[0]] + more)[1..] == more;
      }
    }
  }

  // ---- a number ----------------------------------------------------------------------------------------------

  lemma {:induction false} DecimalDigits(n: nat)
    ensures Decimal(n) != "" && (forall k :: 0 <= k < |Decimal(n)| ==> IsDigit(Decimal(n)[k]))
    ensures Decimal(n)[0] == '0' <==> n == 0
    ensures NumberOf(Decimal(n)) == n
  {
    if n < 10 {
      assert Decimal(n)[..0] == "";
    } else {
      DecimalDigits(n / 10);
      var d := Decimal(n);
      assert d[..|d| - 1] == Decimal(n / 10) && d[0] == Decimal(n / 10)[0];
    }
  }

  lemma {:induction false} CountsDigits(d: string, rest: string)
    requires (forall k :: 0 <= k < |d| ==> IsDigit(d[k])) && (rest == "" || !IsDigit(rest[0]))
    ensures DigitCount(d + rest) == |d|
  {
    if d == "" {
      assert d + rest == rest;
    } else {
      assert (d + rest)[1..] == d[1..] + rest;
      CountsDigits(d[1..], rest);
    }
  }

  lemma DecimalLength(n: nat, rest: string)
    requires rest == "" || !IsDigit(rest[0])
    ensures NumberLength(Decimal(n) + rest) == |Decimal(n)|
  {
    DecimalDigits(n);
    CountsDigits(Decimal(n), rest);
    if n == 0 {
      assert Decimal(0) == "0";
    }
  }

  /** What may follow a bare literal: white space, then a comma or a parenthesis. */
  predicate Follows(rest: string) { Ends(rest) && !IsDigit(rest[0]) && rest[0] != '\'' }

  lemma MatchesAt(s: string, sign: nat, n: nat)
    requires sign == (if s != "" && s[0] == '-' then 1 else 0) && sign <= |s|
    requires n == NumberLength(s[sign..]) && n > 0 && Ends(s[sign + n..]) && NumberOf(s[sign..][..n]) <= MAX_SAFE
    ensures var m: int := NumberOf(s[sign..][..n]);
            MatchNumber(s) == Some(Bare(Int(if sign == 1 then -m else m), sign + n))
  {
  }

  lemma NumberReads(n: int, rest: string)
    requires -MAX_SAFE <= n <= MAX_SAFE && rest != "" && Follows(rest)
    ensures MatchNumber(PrintValue(Int(n)) + rest) == Some(Bare(Int(n), |PrintValue(Int(n))|))
  {
    var m: nat := if n < 0 then -n else n;
    var s := PrintValue(Int(n)) + rest;
    var sign := if n < 0 then 1 else 0;
    DecimalDigits(m);
    DecimalLength(m, rest);
    assert s[sign..] == Decimal(m) + rest;
    assert s[sign + |Decimal(m)|..] == rest;
    assert s[sign..][..|Decimal(m)|] == Decimal(m);
    assert s[0] == '-' <==> n < 0;
    MatchesAt(s, sign, |Decimal(m)|);
  }

  lemma BareIsNotNull(s: string)
    requires s != "" && (IsDigit(s[0]) || s[0] == '-')
    ensures MatchBare(s) == MatchNumber(s)
  {
    assert Upper(s[0]) != 'N';
  }

  lemma TextValueReads(str: string, rest: string)
    requires rest != "" && rest[0] != '\''
    ensures ParseValue(PrintValue(Text(str)) + rest) == Some(Piece(Text(str), rest))
  {
    var s := PrintValue(Text(str)) + rest;
    TextReads(str, rest);
    assert s[0] == '\'' && s[1..] == Doubled(str) + ("'" + rest);
  }

  lemma NumberValueReads(n: int, rest: string)
    requires Safe(Int(n)) && rest != "" && Follows(rest)
    ensures ParseValue(PrintValue(Int(n)) + rest) == Some(Piece(Int(n), rest))
  {
    var s := PrintValue(Int(n)) + rest;
    DecimalDigits(if n < 0 then -n else n);
    NumberReads(n, rest);
    assert s[0] == PrintValue(Int(n))[0];
    BareIsNotNull(s);
    assert s[|PrintValue(Int(n))|..] == rest;
  }

  lemma ValueReads(v: Value, rest: string)
    requires Safe(v) && rest != "" && Follows(rest)
    ensures ParseValue(PrintValue(v) + rest) == Some(Piece(v, rest))
  {
    match v {
      case Text(str) => TextValueReads(str, rest);
      case Null => NullReads(rest);
      case Int(n) => NumberValueReads(n, rest);
    }
  }

  lemma NullReads(rest: string)
    requires rest != "" && Follows(rest)
    ensures ParseValue("NULL" + rest) == Some(Piece(Null, rest))
  {
    var s := "NULL" + rest;
    BeginsWith('L', "", "L", rest);
    BeginsWith('L', "L", "LL", rest);
    BeginsWith('U', "LL", "ULL", rest);
    BeginsWith('N', "ULL", "NULL", rest);
    assert s[4..] == rest;
  }

  /** A word that starts a text, one letter longer. */
  lemma BeginsWith(c: char, word: string, longer: string, rest: string)
    requires longer == [c] + word && Begins(word + rest, word) && Upper(c) == c
    ensures Begins(longer + rest, longer)
  {
    assert longer[0] == c && longer[1..] == word;
    assert (longer + rest)[0] == c && (longer + rest)[1..] == word + rest;
  }

  // ---- rows -----------------------------------------------------------------------------------------------------

  lemma SeparatorFollows(sep: string, rest: string)
    requires AllSpace(sep) && rest != "" && (rest[0] == ',' || rest[0] == ')')
    ensures Follows(sep + rest)
  {
    SkipsTo(sep, rest);
    if sep != "" {
      assert IsSpace(sep[0]) && (sep + rest)[0] == sep[0];
      if IsDigit(sep[0]) || sep[0] == '\'' {
        VisibleIsNotSpace(sep[0]);
        assert false;
      }
    }
  }

  lemma ValueIsVisible(v: Value)
    ensures PrintValue(v) != "" && '!' <= PrintValue(v)[0] <= '~'
  {
    if v.Int? {
      DecimalDigits(if v.n < 0 then -v.n else v.n);
    }
  }

  lemma CellStep(s: string, v: Value, rest: string, close: string)
    requires ParseValue(SkipSpace(s)) == Some(Piece(v, rest)) && SkipSpace(rest) == close && close != ""
    ensures close[0] == ')' ==> ParseCells(s) == Some(Piece([v], close[1..]))
    ensures close[0] == ',' ==> ParseCells(s) == Before([v], ParseCells(close[1..]))
  {
  }

  lemma CellReads(v: Value, sep: string, close: string)
    requires Safe(v) && AllSpace(sep) && close != "" && (close[0] == ',' || close[0] == ')')
    ensures var s := sep + (PrintValue(v) + (sep + close));
            && (close[0] == ')' ==> ParseCells(s) == Some(Piece([v], close[1..])))
            && (close[0] == ',' ==> ParseCells(s) == Before([v], ParseCells(close[1..])))
  {
    var text := PrintValue(v) + (sep + close);
    ValueIsVisible(v);
    SeparatorFollows(sep, close);
    ValueReads(v, sep + close);
    assert text[0] == PrintValue(v)[0];
    SkipsTo(sep, text);
    SkipsTo(sep, close);
    CellStep(sep + text, v, sep + close, close);
  }

  /** The text of a row's cells, grouped the way it is read. */
  lemma PrintedCells(row: seq<Value>, sep: string, rest: string)
    requires row != []
    ensures var close := if |row| == 1 then ")" + rest else "," + (PrintCells(row[1..], sep) + rest);
            PrintCells(row, sep) + rest == sep + (PrintValue(row[0]) + (sep + close))
  {
  }

  lemma LastCell(v: Value, sep: string, rest: string)
    requires Safe(v) && AllSpace(sep)
    ensures ParseCells(sep + (PrintValue(v) + (sep + (")" + rest)))) == Some(Piece([v], rest))
  {
    CellReads(v, sep, ")" + rest);
    assert (")" + rest)[1..] == rest;
  }

  lemma NextCell(v: Value, sep: string, more: string, cells: seq<Value>, rest: string)
    requires Safe(v) && AllSpace(sep) && ParseCells(more) == Some(Piece(cells, rest))
    ensures ParseCells(sep + (PrintValue(v) + (sep + ("," + more)))) == Some(Piece([v] + cells, rest))
  {
    CellReads(v, sep, "," + more);
    assert ("," + more)[1..] == more;
  }

  lemma {:induction false} CellsRead(row: seq<Value>, sep: string, rest: string)
    requires row != [] && AllSpace(sep) && forall k :: 0 <= k < |row| ==> Safe(row[k])
    ensures ParseCells(PrintCells(row, sep) + rest) == Some(Piece(row, rest))
    decreases |row|
  {
    PrintedCells(row, sep, rest);
    if |row| == 1 {
      LastCell(row[0], sep, rest);
      assert row == [row[0]];
    } else {
      var cells := row[1..];
      var more := PrintCells(cells, sep) + rest;
      CellsRead(cells, sep, rest);
      NextCell(row[0], sep, more, cells, rest);
      assert row == [row[0]] + cells;
    }
  }

  lemma RowReads(row: seq<Value>, sep: string, next: string, limit: nat)
    requires row != [] && AllSpace(sep) && limit > 0 && forall k :: 0 <= k < |row| ==> Safe(row[k])
    requires next != "" ==> next[0] == '('
    ensures var more := if next == "" then "" else sep + ("," + (sep + next));
            ParseRow("(" + (PrintCells(row, sep) + more), limit) == Fine(Piece(row, next))
  {
    var more := if next == "" then "" else sep + ("," + (sep + next));
    var text := "(" + (PrintCells(row, sep) + more);
    CellsRead(row, sep, more);
    SkipsTo("", text);
    assert "" + text == text && text[1..] == PrintCells(row, sep) + more;
    if next != "" {
      SkipsTo(sep, "," + (sep + next));
      assert ("," + (sep + next))[1..] == sep + next;
      SkipsTo(sep, next);
    }
  }

  lemma LastRow(row: seq<Value>, sep: string, limit: nat)
    requires row != [] && AllSpace(sep) && limit > 0 && forall k :: 0 <= k < |row| ==> Safe(row[k])
    ensures ParseRows("(" + PrintCells(row, sep), limit) == Fine([row])
  {
    RowReads(row, sep, "", limit);
    assert PrintCells(row, sep) + "" == PrintCells(row, sep);
    assert [row] + [] == [row];
  }

  lemma NextRow(row: seq<Value>, sep: string, next: string, limit: nat, rows: seq<seq<Value>>)
    requires row != [] && AllSpace(sep) && forall k :: 0 <= k < |row| ==> Safe(row[k])
    requires limit > 0 && next != "" && next[0] == '(' && ParseRows(next, OneLess(limit)) == Fine(rows)
    ensures ParseRows("(" + (PrintCells(row, sep) + (sep + ("," + (sep + next)))), limit) == Fine([row] + rows)
  {
    RowReads(row, sep, next, limit);
  }

  lemma PrintedRows(rows: seq<seq<Value>>, sep: string)
    requires rows != [] && forall j :: 0 <= j < |rows| ==> rows[j] != []
    ensures PrintRows(rows, sep) != "" && PrintRows(rows, sep)[0] == '('
    ensures PrintRows(rows, sep) ==
            if |rows| == 1 then "(" + PrintCells(rows[0], sep)
            else "(" + (PrintCells(rows[0], sep) + (sep + ("," + (sep + PrintRows(rows[1..], sep)))))
  {
    assert PrintCells(rows[0], sep) + "" == PrintCells(rows[0], sep);
  }

  lemma ManyRows(rows: seq<seq<Value>>, sep: string)
    requires |rows| > 1 && forall j :: 0 <= j < |rows| ==> rows[j] != []
    ensures var next := PrintRows(rows[1..], sep);
            && next != "" && next[0] == '('
            && PrintRows(rows, sep) == "(" + (PrintCells(rows[0], sep) + (sep + ("," + (sep + next))))
  {
    PrintedRows(rows, sep);
    PrintedRows(rows[1..], sep);
  }

  /** `literals` undoes the printer: every row comes back, whatever white space stands between. */
  lemma {:induction false} RowsRead(rows: seq<seq<Value>>, sep: string, limit: nat)
    requires rows != [] && Printable(rows) && AllSpace(sep) && |rows| <= limit
    ensures ParseRows(PrintRows(rows, sep), limit) == Fine(rows)
    decreases |rows|
  {
    var first := rows[0];
    if |rows| == 1 {
      PrintedRows(rows, sep);
      LastRow(first, sep, limit);
      assert rows == [first];
    } else {
      var more := rows[1..];
      ManyRows(rows, sep);
      RowsRead(more, sep, OneLess(limit));
      NextRow(first, sep, PrintRows(more, sep), limit, more);
      assert rows == [first] + more;
    }
  }

  // ---- statements through the splitter -----------------------------------------------------------------------

  /** Reading `x` in plain text only adds it to the statement being read, whatever was read before. */
  ghost predicate Passes(x: string, rest: string) {
    forall v: string :: Split(x + rest, v, false) == Split(rest, v + x, false)
  }

  predicate PlainChar(c: char) { c != '\'' && c != ';' && c != '-' && c != '/' }

  lemma PassesTwo(x: string, y: string, rest: string)
    requires Passes(x, y + rest) && Passes(y, rest)
    ensures Passes(x + y, rest)
  {
    forall v: string
      ensures Split((x + y) + rest, v, false) == Split(rest, v + (x + y), false)
    {
      assert (x + y) + rest == x + (y + rest);
      assert v + (x + y) == (v + x) + y;
    }
  }

  lemma PassesNone(rest: string)
    ensures Passes("", rest)
  {
    forall v: string
      ensures Split("" + rest, v, false) == Split(rest, v + "", false)
    {
      assert "" + rest == rest && v + "" == v;
    }
  }

  lemma PassesOne(c: char, rest: string)
    requires c != '\'' && c != ';' && !At([c] + rest, '-', '-') && !At([c] + rest, '/', '*')
    ensures Passes([c], rest)
  {
    assert ([c] + rest)[1..] == rest;
  }

  lemma {:induction false} PlainPasses(x: string, rest: string)
    requires forall k :: 0 <= k < |x| ==> PlainChar(x[k])
    ensures Passes(x, rest)
  {
    if x == "" {
      PassesNone(rest);
    } else {
      PlainPasses(x[1..], rest);
      PassesOne(x[0], x[1..] + rest);
      PassesTwo([x[0]], x[1..], rest);
      assert x == [x[0]] + x[1..];
    }
  }

  lemma SpaceIsPlain(sep: string)
    requires AllSpace(sep)
    ensures forall k :: 0 <= k < |sep| ==> PlainChar(sep[k])
  {
    forall k | 0 <= k < |sep|
      ensures PlainChar(sep[k])
    {
      if !PlainChar(sep[k]) {
        VisibleIsNotSpace(sep[k]);
      }
    }
  }

  /** Inside a quoted text every character is content, semicolons and comment marks included. */
  lemma {:induction false} QuotedPasses(s: string, rest: string, v: string)
    requires rest == "" || rest[0] != '\''
    ensures Split(Doubled(s) + ("'" + rest), v, true) == Split(rest, v + (Doubled(s) + "'"), false)
  {
    var tail := "'" + rest;
    if s == "" {
      assert Doubled(s) + tail == tail && tail[1..] == rest && Doubled(s) + "'" == "'";
    } else {
      var more := Doubled(s[1..]) + tail;
      if s[0] == '\'' {
        assert Doubled(s) + tail == "''" + more && ("''" + more)[2..] == more;
        QuotedPasses(s[1..], rest, v + "''");
        assert v + "''" + (Doubled(s[1..]) + "'") == v + (Doubled(s) + "'");
      } else {
        assert Doubled(s) + tail == [s[0]] + more && ([s[0]] + more)[1..] == more;
        QuotedPasses(s[1..], rest, v + [s[0]]);
        assert v + [s[0]] + (Doubled(s[1..]) + "'") == v + (Doubled(s) + "'");
      }
    }
  }

  lemma OpensQuote(body: string, v: string)
    ensures Split("'" + body, v, false) == Split(body, v + "'", true)
  {
    assert ("'" + body)[1..] == body;
  }

  lemma TextPasses(s: string, rest: string)
    requires rest == "" || rest[0] != '\''
    ensures Passes(PrintValue(Text(s)), rest)
  {
    var body := Doubled(s) + ("'" + rest);
    assert PrintValue(Text(s)) + rest == "'" + body;
    forall v: string
      ensures Split("'" + body, v, false) == Split(rest, v + PrintValue(Text(s)), false)
    {
      OpensQuote(body, v);
      QuotedPasses(s, rest, v + "'");
      assert v + "'" + (Doubled(s) + "'") == v + PrintValue(Text(s));
    }
  }

  lemma DigitsPass(n: nat, rest: string)
    ensures Passes(Decimal(n), rest)
  {
    DecimalDigits(n);
    PlainPasses(Decimal(n), rest);
  }

  lemma ValuePasses(v: Value, rest: string)
    requires rest != "" && rest[0] != '\''
    ensures Passes(PrintValue(v), rest)
  {
    match v {
      case Null => PlainPasses("NULL", rest);
      case Text(s) => TextPasses(s, rest);
      case Int(n) =>
        if n < 0 {
          DecimalDigits(-n);
          DigitsPass(-n, rest);
          PassesOne('-', Decimal(-n) + rest);
          PassesTwo("-", Decimal(-n), rest);
        } else {
          DigitsPass(n, rest);
        }
    }
  }

  lemma {:induction false} CellsPass(row: seq<Value>, sep: string, rest: string)
    requires row != [] && AllSpace(sep)
    ensures Passes(PrintCells(row, sep), rest)
    decreases |row|
  {
    var close := if |row| == 1 then ")" else "," + PrintCells(row[1..], sep);
    SpaceIsPlain(sep);
    if |row| == 1 {
      PlainPasses(")", rest);
    } else {
      CellsPass(row[1..], sep, rest);
      PlainPasses(",", PrintCells(row[1..], sep) + rest);
      PassesTwo(",", PrintCells(row[1..], sep), rest);
    }
    PlainPasses(sep, close + rest);
    PassesTwo(sep, close, rest);
    assert (sep + close) + rest == sep + (close + rest);
    assert sep != "" ==> ((sep + close) + rest)[0] == sep[0] && PlainChar(sep[0]);
    ValuePasses(row[0], (sep + close) + rest);
    PassesTwo(PrintValue(row[0]), sep + close, rest);
    PlainPasses(sep, (PrintValue(row[0]) + (sep + close)) + rest);
    PassesTwo(sep, PrintValue(row[0]) + (sep + close), rest);
  }

  lemma {:induction false} RowsPass(rows: seq<seq<Value>>, sep: string, rest: string)
    requires rows != [] && AllSpace(sep) && forall j :: 0 <= j < |rows| ==> rows[j] != []
    ensures Passes(PrintRows(rows, sep), rest)
    decreases |rows|
  {
    SpaceIsPlain(sep);
    PrintedRows(rows, sep);
    if |rows| == 1 {
      CellsPass(rows[0], sep, rest);
      PlainPasses("(", PrintCells(rows[0], sep) + rest);
      PassesTwo("(", PrintCells(rows[0], sep), rest);
    } else {
      var next := PrintRows(rows[1..], sep);
      RowsPass(rows[1..], sep, rest);
      PlainPasses(sep, next + rest);
      PassesTwo(sep, next, rest);
      PlainPasses(",", (sep + next) + rest);
      PassesTwo(",", sep + next, rest);
      PlainPasses(sep, ("," + (sep + next)) + rest);
      PassesTwo(sep, "," + (sep + next), rest);
      var more := sep + ("," + (sep + next));
      CellsPass(rows[0], sep, more + rest);
      PassesTwo(PrintCells(rows[0], sep), more, rest);
      PlainPasses("(", (PrintCells(rows[0], sep) + more) + rest);
      PassesTwo("(", PrintCells(rows[0], sep) + more, rest);
    }
  }

  // ---- what may stand between statements -----------------------------------------------------------------------

  datatype Gap = Blank(s: string) | LineComment(s: string) | BlockComment(s: string)
  {
    /** A line comment holds no line feed, and a block comment does not close early. */
    predicate Valid() {
      match this
      case Blank(s) => AllSpace(s)
      case LineComment(s) => '\n' !in s
      case BlockComment(s) => CloseAt(s + "*/") == Some(|s|)
    }
    function Print(): string {
      match this
      case Blank(s) => s
      case LineComment(s) => "--" + (s + "\n")
      case BlockComment(s) => "/*" + (s + "*/")
    }
    /** What the splitter keeps of it. */
    function Shadow(): string { if Blank? then s else " " }
  }

  function PrintGaps(gaps: seq<Gap>): string {
    if gaps == [] then "" else gaps[0].Print() + PrintGaps(gaps[1..])
  }

  function Shadows(gaps: seq<Gap>): string {
    if gaps == [] then "" else gaps[0].Shadow() + Shadows(gaps[1..])
  }

  predicate ValidGaps(gaps: seq<Gap>) { forall k :: 0 <= k < |gaps| ==> gaps[k].Valid() }

  lemma {:induction false} LineEnds(s: string, rest: string)
    requires '\n' !in s
    ensures LineEnd(s + ("\n" + rest)) == |s|
  {
    if s == "" {
      assert s + ("\n" + rest) == "\n" + rest;
    } else {
      assert (s + ("\n" + rest))[1..] == s[1..] + ("\n" + rest);
      assert forall k :: 0 <= k < |s| - 1 ==> s[1..][k] in s;
      LineEnds(s[1..], rest);
    }
  }

  lemma {:induction false} ClosesFirst(s: string, rest: string)
    requires CloseAt(s).Some?
    ensures CloseAt(s + rest) == CloseAt(s)
  {
    if !(s[0] == '*' && s[1] == '/') {
      ClosesFirst(s[1..], rest);
      assert (s + rest)[1..] == s[1..] + rest;
    }
  }

  lemma LineCommentPasses(s: string, rest: string, v: string)
    requires '\n' !in s
    ensures Split(LineComment(s).Print() + rest, v, false) == Split(rest, v + " ", false)
  {
    var t := LineComment(s).Print() + rest;
    var line := "--" + s;
    assert '\n' !in line;
    LineEnds(line, rest);
    assert t == line + ("\n" + rest) && t[|line| + 1..] == rest;
  }

  lemma BlockCommentPasses(s: string, rest: string, v: string)
    requires CloseAt(s + "*/") == Some(|s|)
    ensures Split(BlockComment(s).Print() + rest, v, false) == Split(rest, v + " ", false)
  {
    var t := BlockComment(s).Print() + rest;
    ClosesFirst(s + "*/", rest);
    assert t[2..] == (s + "*/") + rest && t[|s| + 4..] == rest;
  }

  lemma GapPasses(gap: Gap, rest: string, v: string)
    requires gap.Valid()
    ensures Split(gap.Print() + rest, v, false) == Split(rest, v + gap.Shadow(), false)
  {
    match gap {
      case Blank(s) =>
        SpaceIsPlain(s);
        PlainPasses(s, rest);
      case LineComment(s) => LineCommentPasses(s, rest, v);
      case BlockComment(s) => BlockCommentPasses(s, rest, v);
    }
  }

  lemma SpaceIsSpace()
    ensures IsSpace(' ')
  {
  }

  lemma {:induction false} GapsPass(gaps: seq<Gap>, rest: string, v: string)
    requires ValidGaps(gaps)
    ensures Split(PrintGaps(gaps) + rest, v, false) == Split(rest, v + Shadows(gaps), false) && AllSpace(Shadows(gaps))
    decreases |gaps|
  {
    SpaceIsSpace();
    if gaps == [] {
      assert PrintGaps(gaps) + rest == rest && v + Shadows(gaps) == v;
    } else {
      var more := PrintGaps(gaps[1..]) + rest;
      assert PrintGaps(gaps) + rest == gaps[0].Print() + more;
      GapPasses(gaps[0], more, v);
      GapsPass(gaps[1..], rest, v + gaps[0].Shadow());
      assert v + gaps[0].Shadow() + Shadows(gaps[1..]) == v + Shadows(gaps);
    }
  }

  // ---- whole dumps --------------------------------------------------------------------------------------------------

  lemma {:induction false} NothingToDrop(s: string)
    requires s == "" || !IsSpace(s[|s| - 1])
    ensures DropRight(s) == s
  {
  }

  lemma TrimsTo(ws: string, st: string)
    requires AllSpace(ws) && st != "" && !IsSpace(st[0]) && !IsSpace(st[|st| - 1])
    ensures Trim(ws + st) == st
  {
    SkipsOver(ws, st);
    NothingToDrop(st);
  }

  lemma TrimsAway(ws: string)
    requires AllSpace(ws)
    ensures Trim(ws) == ""
  {
    SkipsOver(ws, "");
    assert ws + "" == ws;
  }

  /** A statement that reads as one piece: nothing in it ends it, hides it or is trimmed off it. */
  ghost predicate Sealed(st: string) {
    st != "" && !IsSpace(st[0]) && !IsSpace(st[|st| - 1]) && forall rest: string :: Passes(st, ";" + rest)
  }

  datatype Entry = Entry(gaps: seq<Gap>, statement: string)

  function Dump(entries: seq<Entry>, last: seq<Gap>): string {
    if entries == [] then PrintGaps(last)
    else PrintGaps(entries[0].gaps) + (entries[0].statement + (";" + Dump(entries[1..], last)))
  }

  function StatementsOf(entries: seq<Entry>): seq<string> {
    if entries == [] then [] else [entries[0].statement] + StatementsOf(entries[1..])
  }

  lemma EndsStatement(value: string, rest: string)
    requires Trim(value) != ""
    ensures Split(";" + rest, value, false) == Prepend([Trim(value)], Split(rest, "", false))
  {
    assert (";" + rest)[1..] == rest;
  }

  lemma EntrySplits(e: Entry, rest: string)
    requires ValidGaps(e.gaps) && Sealed(e.statement)
    ensures Split(PrintGaps(e.gaps) + (e.statement + (";" + rest)), "", false) == Prepend([e.statement], Split(rest, "", false))
  {
    var ws := Shadows(e.gaps);
    GapsPass(e.gaps, e.statement + (";" + rest), "");
    assert "" + ws == ws;
    assert Passes(e.statement, ";" + rest);
    TrimsTo(ws, e.statement);
    EndsStatement(ws + e.statement, rest);
  }

  /** `statements` finds exactly the statements of a dump, whatever comments and space stand between them. */
  lemma {:induction false} DumpSplits(entries: seq<Entry>, last: seq<Gap>)
    requires ValidGaps(last) && forall k :: 0 <= k < |entries| ==> ValidGaps(entries[k].gaps) && Sealed(entries[k].statement)
    ensures Split(Dump(entries, last), "", false) == Fine(StatementsOf(entries))
    decreases |entries|
  {
    if entries == [] {
      GapsPass(last, "", "");
      assert PrintGaps(last) + "" == PrintGaps(last);
      TrimsAway("" + Shadows(last));
    } else {
      DumpSplits(entries[1..], last);
      EntrySplits(entries[0], Dump(entries[1..], last));
    }
  }
}
