/** NUL-terminated text as the sqlite cursor reads it (Modules/_sqlite/cursor.c):
    a buffer is modelled by its contents `s`, and reading one position past the
    contents yields the terminator. The column-name cut shared by
    `_build_column_name` and the declared-type lookup of `build_row_cast_map`
    lives here. */
module CText {
  datatype Option<T> = None | Some(value: T)

  const Nul: char := '\0'

  /** The character at `i` of the buffer holding `s` and its terminator. */
  function At(s: seq<char>, i: nat): (c: char)
    requires i <= |s|
    ensures i == |s| ==> c == Nul
    ensures i < |s| ==> c == s[i]
  {
    if i < |s| then s[i] else Nul
  }

  /** Where the cut of `_build_column_name` ends: a space or the terminator. */
  predicate IsStop(c: char)
  {
    c == ' ' || c == Nul
  }

  /** `p` is the text of `s` before its first space or NUL: a prefix of `s`
      holding no stop, followed in the buffer by a stop. */
  predicate IsCut(s: seq<char>, p: seq<char>)
  {
    && |p| <= |s| && p == s[..|p|]
    && (forall c :: c in p ==> !IsStop(c))
    && IsStop(At(s, |p|))
  }

  /** The text of `s` before its first space or NUL, by walking a position
      forward until it reaches one (the loops at cursor.c:188-196 and
      :230-234). The result is the longest prefix free of stops. */
  method CutAtSpace(s: seq<char>) returns (prefix: seq<char>)
    ensures IsCut(s, prefix)
  {
    var pos := 0;
    while !IsStop(At(s, pos))
      invariant pos <= |s|
      invariant forall k :: 0 <= k < pos ==> !IsStop(s[k])
      decreases |s| - pos
    {
      pos := pos + 1;
    }
    prefix := s[..pos];
  }

  /** The stop-free prefix is unique: two cuts of the same text agree, so
      every caller of `CutAtSpace` sees the same name. */
  lemma CutIsUnique(s: seq<char>, p: seq<char>, q: seq<char>)
    requires IsCut(s, p) && IsCut(s, q)
    ensures p == q
  {
  }

  /** `_build_column_name` (cursor.c:221-235): a missing name stays missing;
      otherwise the name is cut before its first space, so "id INTEGER"
      names the column "id". */
  method BuildColumnName(colname: Option<seq<char>>) returns (name: Option<seq<char>>)
    ensures colname.None? <==> name.None?
    ensures colname.Some? ==> IsCut(colname.value, name.value)
  {
    if colname.None? {
      return None;
    }
    var cut := CutAtSpace(colname.value);
    name := Some(cut);
  }

  /** A declared type "INTEGER PRIMARY KEY" is looked up as "INTEGER", and a
      name holding no space is kept whole. */
  lemma CutExamples(p: seq<char>, q: seq<char>)
    requires IsCut("INTEGER PRIMARY KEY", p) && IsCut("price", q)
    ensures p == "INTEGER" && q == "price"
  {
    assert IsCut("INTEGER PRIMARY KEY", "INTEGER");
    CutIsUnique("INTEGER PRIMARY KEY", p, "INTEGER");
    assert IsCut("price", "price");
    CutIsUnique("price", q, "price");
  }
}
