/** What JavaScript takes for white space, in `trim` and in the `\s` of its patterns alike. */
module JsText {
  /** The runs of white space beyond ASCII: the first code point of each, and the last. */
  function RunStart(k: nat): int {
    match k
    case 0 => 0xa0 case 1 => 0x1680 case 2 => 0x2000 case 3 => 0x2028
    case 4 => 0x202f case 5 => 0x205f case 6 => 0x3000 case _ => 0xfeff
  }

  function RunEnd(k: nat): int {
    match k
    case 2 => 0x200a case 3 => 0x2029 case _ => RunStart(k)
  }

  /** Whether `n` is in one of the first `count` runs. */
  predicate InRuns(n: int, count: nat) {
    count > 0 && (RunStart(count - 1) <= n <= RunEnd(count - 1) || InRuns(n, count - 1))
  }

  /** White space and line terminators. */
  predicate IsSpace(c: char) {
    c == ' ' || '\t' <= c <= '\r' || InRuns(c as int, 8)
  }

  /** The twenty-five characters, by their code points. */
  lemma SpacesAre(c: char)
    ensures IsSpace(c) <==>
              c as int in {0x09, 0x0a, 0x0b, 0x0c, 0x0d, 0x20, 0xa0, 0x1680, 0x2000, 0x2001, 0x2002, 0x2003, 0x2004, 0x2005, 0x2006,
                           0x2007, 0x2008, 0x2009, 0x200a, 0x2028, 0x2029, 0x202f, 0x205f, 0x3000, 0xfeff}
  {
    assert InRuns(c as int, 8) <==> (RunStart(7) <= c as int <= RunEnd(7) || InRuns(c as int, 7));
    assert InRuns(c as int, 6) <==> (RunStart(5) <= c as int <= RunEnd(5) || InRuns(c as int, 5));
    assert InRuns(c as int, 4) <==> (RunStart(3) <= c as int <= RunEnd(3) || InRuns(c as int, 3));
    assert InRuns(c as int, 2) <==> (RunStart(1) <= c as int <= RunEnd(1) || InRuns(c as int, 1));
  }

  lemma {:induction false} LowIsNotWide(n: int, count: nat)
    requires n < 0xa0
    ensures !InRuns(n, count)
  {
    if count > 0 {
      LowIsNotWide(n, count - 1);
    }
  }

  lemma VisibleIsNotSpace(c: char)
    requires '!' <= c <= '~'
    ensures !IsSpace(c)
  {
    LowIsNotWide(c as int, 8);
  }
}
