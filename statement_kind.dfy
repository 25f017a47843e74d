/** The statement classifier of the sqlite cursor, `detect_statement_type`
    (Modules/_sqlite/cursor.c:39-75): it skips leading blanks, copies the
    leading run of letters, lower-cased, into a 20-character buffer, and
    compares the buffer with the five statement keywords it cares about. */
module StatementKinds {
  import opened CText

  datatype StatementKind = Select | Insert | Update | Delete | Replace | Other | Invalid

  /** Size of the local buffer `buf` (cursor.c:41). */
  const BufSize: nat := 20

  /** The blanks skipped before the first word. */
  predicate IsBlank(c: char)
  {
    c == '\r' || c == '\n' || c == ' ' || c == '\t'
  }

  /** `isalpha` in the C locale. */
  predicate IsAlpha(c: char)
  {
    'a' <= c <= 'z' || 'A' <= c <= 'Z'
  }

  /** `tolower` in the C locale: a capital moves to its small letter, 32
      code points further on ('a' - 'A'). */
  function ToLower(c: char): (r: char)
    ensures IsAlpha(c) ==> 'a' <= r <= 'z'
    ensures 'A' <= c <= 'Z' ==> r as int == c as int + 32
    ensures !('A' <= c <= 'Z') ==> r == c
  {
    if 'A' <= c <= 'Z' then (c as int - 'A' as int + 'a' as int) as char else c
  }

  function LowerAll(w: seq<char>): (r: seq<char>)
    ensures |r| == |w|
    ensures forall i :: 0 <= i < |w| ==> r[i] == ToLower(w[i])
  {
    if w == [] then [] else [ToLower(w[0])] + LowerAll(w[1..])
  }

  /** The first position at or after `i` that does not hold a blank. */
  function SkipBlanks(s: seq<char>, i: nat): (j: nat)
    requires i <= |s|
    ensures i <= j <= |s|
    ensures forall k :: i <= k < j ==> IsBlank(s[k])
    ensures !IsBlank(At(s, j))
    decreases |s| - i
  {
    if IsBlank(At(s, i)) then SkipBlanks(s, i + 1) else i
  }

  /** The first position at or after `i` that does not hold a letter. */
  function SkipLetters(s: seq<char>, i: nat): (j: nat)
    requires i <= |s|
    ensures i <= j <= |s|
    ensures forall k :: i <= k < j ==> IsAlpha(s[k])
    ensures !IsAlpha(At(s, j))
    decreases |s| - i
  {
    if IsAlpha(At(s, i)) then SkipLetters(s, i + 1) else i
  }

  /** The kind a lower-case word names: the chain of `strcmp` tests against
      the five keywords (cursor.c:62-74). */
  function KindOfWord(w: seq<char>): (r: StatementKind)
    ensures r != Invalid
  {
    if w == "select" then Select
    else if w == "insert" then Insert
    else if w == "update" then Update
    else if w == "delete" then Delete
    else if w == "replace" then Replace
    else Other
  }

  /** What a statement is: INVALID when nothing but blanks comes before the
      terminator, otherwise the kind named by its whole first word of letters,
      read case-insensitively. */
  function StatementKindOf(statement: seq<char>): StatementKind
  {
    var start := SkipBlanks(statement, 0);
    if At(statement, start) == Nul then Invalid
    else KindOfWord(LowerAll(statement[start..SkipLetters(statement, start)]))
  }

  /** `detect_statement_type`: the buffer holds at most `BufSize - 2` letters
      and its terminator, every write to it is in bounds, and cutting the word
      short there never changes the answer, since every keyword is shorter. */
  method DetectStatementType(statement: seq<char>) returns (kind: StatementKind)
    ensures kind == StatementKindOf(statement)
  {
    var buf := new char[BufSize];
    var src := 0;
    while IsBlank(At(statement, src))
      invariant src <= |statement|
      invariant SkipBlanks(statement, src) == SkipBlanks(statement, 0)
      decreases |statement| - src
    {
      src := src + 1;
    }
    if At(statement, src) == Nul {
      return Invalid;
    }
    ghost var start := src;
    var dst := 0;
    buf[dst] := Nul;
    while IsAlpha(At(statement, src)) && dst < BufSize - 2
      invariant start <= src <= |statement| && dst == src - start <= BufSize - 2
      invariant SkipLetters(statement, src) == SkipLetters(statement, start)
      invariant forall k :: 0 <= k < dst ==> buf[k] == ToLower(statement[start + k])
      decreases |statement| - src
    {
      buf[dst] := ToLower(statement[src]);
      dst := dst + 1;
      src := src + 1;
    }
    buf[dst] := Nul;
    // strcmp reads `buf` up to the terminator just written at `dst`
    var word := buf[..dst];
    BufferedWordDecides(statement, start, src, word);
    kind := KindOfWord(word);
  }

  /** The word in the buffer names the same kind as the whole first word:
      either it is the whole word, or it was cut at `BufSize - 2` letters and
      both are too long to be keywords. */
  lemma BufferedWordDecides(statement: seq<char>, start: nat, src: nat, word: seq<char>)
    requires start <= src <= |statement| && |word| == src - start <= BufSize - 2
    requires forall k :: 0 <= k < |word| ==> word[k] == ToLower(statement[start + k])
    requires SkipLetters(statement, src) == SkipLetters(statement, start)
    requires |word| < BufSize - 2 ==> !IsAlpha(At(statement, src))
    ensures KindOfWord(word) == KindOfWord(LowerAll(statement[start..SkipLetters(statement, start)]))
  {
    var whole := LowerAll(statement[start..SkipLetters(statement, start)]);
    if |word| < BufSize - 2 {
      assert word == whole;
    } else {
      LongWordsAreOther(word);
      LongWordsAreOther(whole);
    }
  }

  /** No keyword is as long as eight letters. */
  lemma LongWordsAreOther(w: seq<char>)
    requires |w| >= 8
    ensures KindOfWord(w) == Other
  {
  }

  /** A statement is INVALID exactly when, up to its terminator, it is all
      blanks (cursor.c:46-52). */
  lemma InvalidIffBlank(statement: seq<char>)
    ensures StatementKindOf(statement) == Invalid <==>
      exists n :: 0 <= n <= |statement| && At(statement, n) == Nul && forall k :: 0 <= k < n ==> IsBlank(statement[k])
  {
    var start := SkipBlanks(statement, 0);
    if At(statement, start) == Nul {
      assert 0 <= start <= |statement| && At(statement, start) == Nul;
    } else {
      forall n | 0 <= n <= |statement| && At(statement, n) == Nul
        ensures exists k :: 0 <= k < n && !IsBlank(statement[k])
      {
        assert n != start;
        if n < start {
          assert false;
        }
      }
    }
  }

  /** Only the first word counts, whatever its case: blanks, then a word of
      letters, then anything that does not continue the word, classify as the
      lower-cased word names. */
  lemma {:induction false} FirstWordDecides(blanks: seq<char>, word: seq<char>, rest: seq<char>)
    requires forall k :: 0 <= k < |blanks| ==> IsBlank(blanks[k])
    requires |word| > 0 && forall k :: 0 <= k < |word| ==> IsAlpha(word[k])
    requires rest == [] || !IsAlpha(rest[0])
    ensures StatementKindOf(blanks + word + rest) == KindOfWord(LowerAll(word))
  {
    var s := blanks + word + rest;
    SkipBlanksOver(s, 0, |blanks|);
    SkipLettersOver(s, |blanks|, |blanks| + |word|);
    assert s[|blanks|..|blanks| + |word|] == word;
  }

  lemma {:induction false} SkipBlanksOver(s: seq<char>, i: nat, j: nat)
    requires i <= j <= |s|
    requires forall k :: i <= k < j ==> IsBlank(s[k])
    requires !IsBlank(At(s, j))
    ensures SkipBlanks(s, i) == j
    decreases j - i
  {
    if i < j {
      SkipBlanksOver(s, i + 1, j);
    }
  }

  lemma {:induction false} SkipLettersOver(s: seq<char>, i: nat, j: nat)
    requires i <= j <= |s|
    requires forall k :: i <= k < j ==> IsAlpha(s[k])
    requires !IsAlpha(At(s, j))
    ensures SkipLetters(s, i) == j
    decreases j - i
  {
    if i < j {
      SkipLettersOver(s, i + 1, j);
    }
  }

  /** A first word longer than every keyword is OTHER, however it begins. */
  lemma LongWordIsOther(blanks: seq<char>, word: seq<char>, rest: seq<char>)
    requires forall k :: 0 <= k < |blanks| ==> IsBlank(blanks[k])
    requires |word| > 7 && forall k :: 0 <= k < |word| ==> IsAlpha(word[k])
    requires rest == [] || !IsAlpha(rest[0])
    ensures StatementKindOf(blanks + word + rest) == Other
  {
    FirstWordDecides(blanks, word, rest);
  }

  /** Case and leading blanks do not matter: "  UpDaTe t" is UPDATE. */
  lemma MixedCaseExample(blanks: seq<char>, word: seq<char>, rest: seq<char>)
    requires blanks == "  " && word == "UpDaTe" && rest == " t"
    ensures StatementKindOf(blanks + word + rest) == Update
  {
    FirstWordDecides(blanks, word, rest);
    assert LowerAll(word) == "update";
  }

  /** The word ends at the first non-letter: "select*" is SELECT. */
  lemma PunctuationEndsWordExample(word: seq<char>, rest: seq<char>)
    requires word == "select" && rest == "*"
    ensures StatementKindOf(word + rest) == Select
  {
    FirstWordDecides([], word, rest);
    assert [] + word + rest == word + rest;
    assert LowerAll(word) == "select";
  }

  /** Leading line breaks and tabs are skipped: "\r\n\tINSERT INTO t" is
      INSERT. */
  lemma LineBreaksExample(blanks: seq<char>, word: seq<char>, rest: seq<char>)
    requires blanks == "\r\n\t" && word == "INSERT" && rest == " INTO t"
    ensures StatementKindOf(blanks + word + rest) == Insert
  {
    FirstWordDecides(blanks, word, rest);
    assert LowerAll(word) == "insert";
  }

  /** A word that merely begins with a keyword is OTHER: "selected". */
  lemma LongerWordExample(word: seq<char>)
    requires word == "selected"
    ensures StatementKindOf(word) == Other
  {
    LongWordIsOther([], word, []);
    assert [] + word + [] == word;
  }

  /** A keyword after punctuation is OTHER: "(select 1)". */
  lemma PunctuationFirstExample(s: seq<char>)
    requires s == "(select 1)"
    ensures StatementKindOf(s) == Other
  {
    SkipBlanksOver(s, 0, 0);
    SkipLettersOver(s, 0, 0);
  }

  /** Blanks alone, or nothing at all, are INVALID. */
  lemma InvalidExamples(s: seq<char>, t: seq<char>)
    requires s == " \t\r\n" && t == ""
    ensures StatementKindOf(s) == Invalid && StatementKindOf(t) == Invalid
  {
    SkipBlanksOver(s, 0, 4);
  }
}
