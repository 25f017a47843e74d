/** `build_row_cast_map` (Modules/_sqlite/cursor.c:140-219): for every result
    column, the converter that `_fetch_one_row` will apply to it. A column name
    of the form "price [decimal]" names its converter between brackets; failing
    that, the declared type, cut at its first space, is looked up instead.

    Two things are modelled as the code is written. The flag tests use `|`
    where `&` is meant (cursor.c:162, :185), so both lookups run whenever
    type detection is on at all. And the position just after the last '['
    (`type_start`, cursor.c:143) is set once before the column loop and never
    reset, so a ']' in a later column can pair with a '[' of an earlier one;
    the key is then measured between two different name buffers, which this
    model does not determine. */
module RowCastMap {
  import opened CText

  /** A registered converter callable, by identity. */
  type Converter = nat

  /** The `detect_types` flags of the connection. */
  const ParseDecltypes: bv32 := 1
  const ParseColnames: bv32 := 2

  /** What sqlite reports about one result column: its name and declared
      type, either of which may be missing. */
  datatype Column = Column(name: Option<seq<char>>, decltype: Option<seq<char>>)

  /** Where `type_start` points: just after a '[' at `offset - 1` in the name
      of result column `column`. */
  datatype TypeStart = TypeStart(column: nat, offset: nat)

  /** What the scan of one column name finds: no bracketed key, the text
      between '[' and ']', or a ']' paired with a '[' of an earlier column. */
  datatype BracketKey = NoKey | Key(key: seq<char>) | StaleKey

  /** The outcome for `row_cast_map`: left as it was (type detection off), a
      converter or none per column, or not determined by this model. */
  datatype CastMap = Unchanged | Built(entries: seq<Option<Converter>>) | Undetermined

  /** The bracket scan of one name from position `pos`, with `type_start` at
      `start` (cursor.c:165-182). */
  function ScanFrom(name: seq<char>, column: nat, pos: nat, start: Option<TypeStart>): (r: (BracketKey, Option<TypeStart>))
    requires pos <= |name|
    decreases |name| - pos
  {
    var c := At(name, pos);
    if c == Nul then (NoKey, start)
    else if c == '[' then ScanFrom(name, column, pos + 1, Some(TypeStart(column, pos + 1)))
    else if c == ']' && start.Some? then
      (if start.value.column == column && start.value.offset <= pos
       then Key(name[start.value.offset..pos]) else StaleKey, start)
    else ScanFrom(name, column, pos + 1, start)
  }

  /** The text of `s` before its first space or NUL. */
  function CutOf(s: seq<char>): (p: seq<char>)
    ensures IsCut(s, p)
  {
    if s == [] || IsStop(s[0]) then [] else [s[0]] + CutOf(s[1..])
  }

  /** The converter registered under `key`, if any (`PyDict_GetItem`). */
  function Lookup(converters: map<seq<char>, Converter>, key: seq<char>): Option<Converter>
  {
    if key in converters then Some(converters[key]) else None
  }

  /** `entries` followed by the entries of `m`. */
  function Prepend(entries: seq<Option<Converter>>, m: CastMap): CastMap
  {
    if m.Built? then Built(entries + m.entries) else m
  }

  /** The entries for columns `i..` when `type_start` is `start` on reaching
      column `i`. */
  function CastEntries(columns: seq<Column>, i: nat, start: Option<TypeStart>, converters: map<seq<char>, Converter>): (m: CastMap)
    requires i <= |columns|
    ensures m.Built? || m.Undetermined?
    decreases |columns| - i
  {
    if i == |columns| then Built([])
    else
      var col := columns[i];
      var scan := if col.name.Some? then ScanFrom(col.name.value, i, 0, start) else (NoKey, start);
      if scan.0.StaleKey? then Undetermined
      else
        var fromName := if scan.0.Key? then Lookup(converters, scan.0.key) else None;
        var entry :=
          if fromName.Some? then fromName
          else if col.decltype.Some? then Lookup(converters, CutOf(col.decltype.value))
          else None;
        Prepend([entry], CastEntries(columns, i + 1, scan.1, converters))
  }

  /** The row cast map for a statement's columns. */
  function RowCastMapOf(detectTypes: bv32, columns: seq<Column>, converters: map<seq<char>, Converter>): CastMap
  {
    if detectTypes == 0 then Unchanged else CastEntries(columns, 0, None, converters)
  }

  /** The bracket scan over one column name. */
  method ScanBrackets(name: seq<char>, column: nat, start: Option<TypeStart>) returns (key: BracketKey, typeStart: Option<TypeStart>)
    ensures (key, typeStart) == ScanFrom(name, column, 0, start)
  {
    typeStart := start;
    key := NoKey;
    var pos := 0;
    while At(name, pos) != Nul
      invariant pos <= |name|
      invariant ScanFrom(name, column, pos, typeStart) == ScanFrom(name, column, 0, start)
      decreases |name| - pos
    {
      if name[pos] == '[' {
        typeStart := Some(TypeStart(column, pos + 1));
      } else if name[pos] == ']' && typeStart.Some? {
        if typeStart.value.column == column && typeStart.value.offset <= pos {
          key := Key(name[typeStart.value.offset..pos]);
        } else {
          key := StaleKey;
        }
        return;
      }
      pos := pos + 1;
    }
  }

  /** `build_row_cast_map`. */
  method BuildRowCastMap(detectTypes: bv32, columns: seq<Column>, converters: map<seq<char>, Converter>) returns (m: CastMap)
    ensures m == RowCastMapOf(detectTypes, columns, converters)
  {
    if detectTypes == 0 {
      return Unchanged;
    }
    var entries: seq<Option<Converter>> := [];
    var typeStart: Option<TypeStart> := None;
    var i := 0;
    while i < |columns|
      invariant i <= |columns|
      invariant Prepend(entries, CastEntries(columns, i, typeStart, converters)) == CastEntries(columns, 0, None, converters)
    {
      var converter: Option<Converter> := None;
      var key := NoKey;
      if detectTypes | ParseColnames != 0 {
        if columns[i].name.Some? {
          key, typeStart := ScanBrackets(columns[i].name.value, i, typeStart);
          if key.StaleKey? {
            return Undetermined;
          }
          if key.Key? {
            converter := Lookup(converters, key.key);
          }
        }
      }
      if converter.None? && detectTypes | ParseDecltypes != 0 {
        if columns[i].decltype.Some? {
          var cut := CutAtSpace(columns[i].decltype.value);
          CutIsUnique(columns[i].decltype.value, cut, CutOf(columns[i].decltype.value));
          converter := Lookup(converters, cut);
        }
      }
      PrependTwice(entries, [converter], CastEntries(columns, i + 1, typeStart, converters));
      entries := entries + [converter];
      i := i + 1;
    }
    m := Built(entries);
  }

  lemma PrependTwice(a: seq<Option<Converter>>, b: seq<Option<Converter>>, m: CastMap)
    ensures Prepend(a, Prepend(b, m)) == Prepend(a + b, m)
  {
    if m.Built? {
      assert a + (b + m.entries) == (a + b) + m.entries;
    }
  }

  // ---------------------------------------------------------------------
  // What the map means

  /** Both flag tests are written with `|` (cursor.c:162, :185) and so pass
      for every value of `detect_types`: the column name is scanned and the
      declared type consulted whichever parse flags are set. */
  lemma FlagTestsAlwaysPass(detectTypes: bv32)
    ensures detectTypes | ParseColnames != 0 && detectTypes | ParseDecltypes != 0
  {
  }

  /** `type_start` is inside column `c`: just after a '[' at or before `pos`,
      with no bracket between it and `pos`. */
  predicate OpenedBefore(name: seq<char>, c: nat, pos: nat, start: Option<TypeStart>)
    requires pos <= |name|
  {
    start.Some? ==>
      && start.value.column == c
      && 1 <= start.value.offset <= pos
      && name[start.value.offset - 1] == '['
      && forall k :: start.value.offset <= k < pos ==> name[k] != '[' && name[k] != ']'
  }

  /** `key` is the text between a '[' at `i` and the next ']' in `name`. */
  predicate KeyBetween(name: seq<char>, i: int, key: seq<char>)
  {
    && 0 <= i && i + |key| + 1 < |name|
    && name[i] == '[' && name[i + |key| + 1] == ']'
    && key == name[i + 1..i + 1 + |key|]
    && forall k :: 0 <= k < |key| ==> key[k] != '[' && key[k] != ']'
  }

  /** Within one column the scan is well defined: it never pairs brackets
      across columns, a key it finds lies between a '[' and the following ']'
      of the name, and `type_start` stays in this column or unset. */
  lemma {:induction false} ScanWithinColumn(name: seq<char>, c: nat, pos: nat, start: Option<TypeStart>)
    requires pos <= |name| && OpenedBefore(name, c, pos, start)
    ensures !ScanFrom(name, c, pos, start).0.StaleKey?
    ensures ScanFrom(name, c, pos, start).0.Key? ==> exists i :: KeyBetween(name, i, ScanFrom(name, c, pos, start).0.key)
    ensures ScanFrom(name, c, pos, start).1.Some? ==> ScanFrom(name, c, pos, start).1.value.column == c
    decreases |name| - pos
  {
    var ch := At(name, pos);
    if ch == Nul {
    } else if ch == '[' {
      ScanWithinColumn(name, c, pos + 1, Some(TypeStart(c, pos + 1)));
    } else if ch == ']' && start.Some? {
      var o := start.value.offset;
      assert KeyBetween(name, o - 1, name[o..pos]);
    } else {
      ScanWithinColumn(name, c, pos + 1, start);
    }
  }

  /** The map is left alone exactly when type detection is off; otherwise,
      when determined, it has one entry per result column. */
  lemma CastMapShape(detectTypes: bv32, columns: seq<Column>, converters: map<seq<char>, Converter>)
    ensures RowCastMapOf(detectTypes, columns, converters).Unchanged? <==> detectTypes == 0
    ensures RowCastMapOf(detectTypes, columns, converters).Built? ==> |RowCastMapOf(detectTypes, columns, converters).entries| == |columns|
  {
    if detectTypes != 0 {
      EntriesPerColumn(columns, 0, None, converters);
    }
  }

  lemma {:induction false} EntriesPerColumn(columns: seq<Column>, i: nat, start: Option<TypeStart>, converters: map<seq<char>, Converter>)
    requires i <= |columns|
    ensures CastEntries(columns, i, start, converters).Built? ==> |CastEntries(columns, i, start, converters).entries| == |columns| - i
    decreases |columns| - i
  {
    if i < |columns| {
      var col := columns[i];
      var scan := if col.name.Some? then ScanFrom(col.name.value, i, 0, start) else (NoKey, start);
      EntriesPerColumn(columns, i + 1, scan.1, converters);
    }
  }

  // ---------------------------------------------------------------------
  // The entries, column by column

  /** The first position at or after `from` holding a ']' or the terminator. */
  function FirstStop(name: seq<char>, from: nat): (p: nat)
    requires from <= |name|
    ensures from <= p <= |name|
    ensures At(name, p) == ']' || At(name, p) == Nul
    ensures forall k :: from <= k < p ==> name[k] != ']' && name[k] != Nul
    decreases |name| - from
  {
    if At(name, from) == ']' || At(name, from) == Nul then from else FirstStop(name, from + 1)
  }

  /** The position of the last '[' before `p`, if there is one. */
  function LastOpenBefore(name: seq<char>, p: nat): (o: Option<nat>)
    requires p <= |name|
    ensures o.Some? ==> o.value < p && name[o.value] == '[' && forall k :: o.value < k < p ==> name[k] != '['
    ensures o.None? ==> forall k :: 0 <= k < p ==> name[k] != '['
  {
    if p == 0 then None else if name[p - 1] == '[' then Some(p - 1) else LastOpenBefore(name, p - 1)
  }

  /** The key a column name gives when read on its own: the text after the
      last '[' that comes before the first ']', up to that ']'. */
  function BracketKeyOf(name: seq<char>): Option<seq<char>>
  {
    var p := FirstStop(name, 0);
    var o := LastOpenBefore(name, p);
    if At(name, p) == ']' && o.Some? then Some(name[o.value + 1..p]) else None
  }

  /** The name's first ']' comes before any '[' of its own: the one case in
      which the scan depends on the columns before it. */
  predicate StrayClose(name: seq<char>)
  {
    var p := FirstStop(name, 0);
    At(name, p) == ']' && LastOpenBefore(name, p).None?
  }

  /** What the scan of column `c`'s name does at a ']' or the terminator,
      given the '[' it has passed (cursor.c:165-181). */
  lemma ScanAtStop(name: seq<char>, c: nat, p: nat, start: Option<TypeStart>)
    requires p <= |name| && (At(name, p) == ']' || At(name, p) == Nul)
    requires LastOpenBefore(name, p).Some? ==> start == Some(TypeStart(c, LastOpenBefore(name, p).value + 1))
    requires LastOpenBefore(name, p).None? && start.Some? ==> start.value.column != c
    ensures var o := LastOpenBefore(name, p);
      var r := ScanFrom(name, c, p, start);
      && (At(name, p) != ']' ==> r == (NoKey, start))
      && (At(name, p) == ']' && o.Some? ==> r == (Key(name[o.value + 1..p]), start))
      && (At(name, p) == ']' && o.None? && start.Some? ==> r == (StaleKey, start))
      && (At(name, p) == ']' && o.None? && start.None? ==> r == ScanFrom(name, c, p + 1, None))
  {
  }

  /** The scan of column `c`'s name, entered with `type_start` in an earlier
      column or unset, up to the first ']' or the terminator: it finds the
      key between the last '[' before that ']' and the ']' itself; without a
      ']' it finds nothing and leaves `type_start` after the last '['; a
      first ']' with no '[' before it pairs with the earlier column's '[',
      or is skipped when `type_start` is unset (cursor.c:165-181). */
  lemma ScanToFirstStop(name: seq<char>, c: nat, pos: nat, start: Option<TypeStart>)
    requires pos <= |name|
    requires LastOpenBefore(name, pos).Some? ==> start == Some(TypeStart(c, LastOpenBefore(name, pos).value + 1))
    requires LastOpenBefore(name, pos).None? && start.Some? ==> start.value.column != c
    ensures var p := FirstStop(name, pos);
      var o := LastOpenBefore(name, p);
      var r := ScanFrom(name, c, pos, start);
      && (At(name, p) != ']' ==> r == (NoKey, if o.Some? then Some(TypeStart(c, o.value + 1)) else start))
      && (At(name, p) == ']' && o.Some? ==> r == (Key(name[o.value + 1..p]), Some(TypeStart(c, o.value + 1))))
      && (At(name, p) == ']' && o.None? && start.Some? ==> r == (StaleKey, start))
      && (At(name, p) == ']' && o.None? && start.None? ==> r == ScanFrom(name, c, p + 1, None))
  {
    var p := FirstStop(name, pos);
    var o := LastOpenBefore(name, p);
    ScanSkipsToStop(name, c, pos, start);
    ScanAtStop(name, c, p, if o.Some? then Some(TypeStart(c, o.value + 1)) else start);
  }

  /** Up to the first ']' or the terminator the scan only records the last
      '[' it passes. */
  lemma {:induction false} ScanSkipsToStop(name: seq<char>, c: nat, pos: nat, start: Option<TypeStart>)
    requires pos <= |name|
    requires LastOpenBefore(name, pos).Some? ==> start == Some(TypeStart(c, LastOpenBefore(name, pos).value + 1))
    ensures var p := FirstStop(name, pos);
      var o := LastOpenBefore(name, p);
      ScanFrom(name, c, pos, start) == ScanFrom(name, c, p, if o.Some? then Some(TypeStart(c, o.value + 1)) else start)
    decreases |name| - pos
  {
    var p := FirstStop(name, pos);
    if pos < p {
      assert FirstStop(name, pos + 1) == p;
      var next := if name[pos] == '[' then Some(TypeStart(c, pos + 1)) else start;
      assert ScanFrom(name, c, pos, start) == ScanFrom(name, c, pos + 1, next);
      ScanSkipsToStop(name, c, pos + 1, next);
    }
  }

  /** The converter of one column read on its own: the one registered under
      its bracketed key, failing that the one registered under its declared
      type cut at the first space, failing that none. */
  function EntryOf(col: Column, converters: map<seq<char>, Converter>): Option<Converter>
  {
    var fromName :=
      if col.name.Some? && BracketKeyOf(col.name.value).Some? then Lookup(converters, BracketKeyOf(col.name.value).value)
      else None;
    if fromName.Some? then fromName
    else if col.decltype.Some? then Lookup(converters, CutOf(col.decltype.value))
    else None
  }

  predicate NoStrayClose(columns: seq<Column>)
  {
    forall j :: 0 <= j < |columns| && columns[j].name.Some? ==> !StrayClose(columns[j].name.value)
  }

  lemma {:induction false} EntriesFrom(columns: seq<Column>, i: nat, start: Option<TypeStart>, converters: map<seq<char>, Converter>)
    requires i <= |columns| && NoStrayClose(columns)
    requires start.Some? ==> start.value.column < i
    ensures CastEntries(columns, i, start, converters)
         == Built(seq(|columns| - i, k requires 0 <= k < |columns| - i => EntryOf(columns[i + k], converters)))
    decreases |columns| - i
  {
    if i < |columns| {
      var col := columns[i];
      var next := start;
      if col.name.Some? {
        ScanToFirstStop(col.name.value, i, 0, start);
        next := ScanFrom(col.name.value, i, 0, start).1;
      }
      EntriesFrom(columns, i + 1, next, converters);
      var rest := seq(|columns| - (i + 1), k requires 0 <= k < |columns| - (i + 1) => EntryOf(columns[i + 1 + k], converters));
      var all := seq(|columns| - i, k requires 0 <= k < |columns| - i => EntryOf(columns[i + k], converters));
      assert all == [EntryOf(col, converters)] + rest;
    }
  }

  /** Unless a column name has a ']' before any '[' of its own, the row cast
      map built with type detection on holds, for every column, the
      converter that column names on its own. */
  lemma RowCastMapEntries(detectTypes: bv32, columns: seq<Column>, converters: map<seq<char>, Converter>)
    requires detectTypes != 0 && NoStrayClose(columns)
    ensures RowCastMapOf(detectTypes, columns, converters)
         == Built(seq(|columns|, i requires 0 <= i < |columns| => EntryOf(columns[i], converters)))
  {
    EntriesFrom(columns, 0, None, converters);
  }

  /** The scan stops at the first ']': in "a [x] [y]" the key is "x". */
  lemma FirstPairExample(name: seq<char>)
    requires name == "a [x] [y]"
    ensures BracketKeyOf(name) == Some("x")
    ensures ScanFrom(name, 0, 0, None).0 == Key("x")
  {
    assert FirstStop(name, 4) == 4;
    assert FirstStop(name, 0) == 4;
    assert LastOpenBefore(name, 4) == Some(2);
    assert name[3..4] == "x";
    ScanToFirstStop(name, 0, 0, None);
  }

  /** With `type_start` unset, a ']' before any '[' is skipped and a later
      pair still gives a key: "a]b[c]" gives "c". */
  lemma StrayCloseSkippedExample(name: seq<char>)
    requires name == "a]b[c]"
    ensures ScanFrom(name, 0, 0, None).0 == Key("c")
  {
    assert FirstStop(name, 1) == 1;
    assert FirstStop(name, 0) == 1;
    assert LastOpenBefore(name, 1) == None;
    ScanToFirstStop(name, 0, 0, None);
    assert FirstStop(name, 5) == 5;
    assert FirstStop(name, 2) == 5;
    assert LastOpenBefore(name, 5) == Some(3);
    assert LastOpenBefore(name, 2) == None;
    ScanToFirstStop(name, 0, 2, None);
    assert name[4..5] == "c";
  }

  // ---------------------------------------------------------------------
  // Examples

  /** Characters other than brackets and the terminator leave the scan as it
      was. */
  lemma {:induction false} ScanPlain(name: seq<char>, c: nat, pos: nat, j: nat, start: Option<TypeStart>)
    requires pos <= j <= |name|
    requires forall k :: pos <= k < j ==> name[k] != '[' && name[k] != ']' && name[k] != Nul
    ensures ScanFrom(name, c, pos, start) == ScanFrom(name, c, j, start)
    decreases j - pos
  {
    if pos < j {
      ScanPlain(name, c, pos + 1, j, start);
    }
  }

  /** "price [decimal]" picks the converter registered as "decimal", even
      though the declared type has one too. */
  lemma ColumnNameExample(name: seq<char>, converters: map<seq<char>, Converter>)
    requires name == "price [decimal]"
    requires converters == map["decimal" := 1, "TEXT" := 2]
    ensures RowCastMapOf(ParseColnames, [Column(Some(name), Some("TEXT"))], converters) == Built([Some(1)])
  {
    var columns := [Column(Some(name), Some("TEXT"))];
    var open := Some(TypeStart(0, 7));
    ScanPlain(name, 0, 0, 6, None);
    assert ScanFrom(name, 0, 6, None) == ScanFrom(name, 0, 7, open);
    ScanPlain(name, 0, 7, 14, open);
    assert name[7..14] == "decimal";
    assert ScanFrom(name, 0, 0, None) == (Key("decimal"), open);
    assert CastEntries(columns, 1, open, converters) == Built([]);
  }

  /** Without a bracketed key, the declared type "INTEGER PRIMARY KEY" is
      looked up as "INTEGER", and a column with neither gets no converter;
      here only PARSE_COLNAMES is set, yet the declared type is consulted. */
  lemma DecltypeExample(decltype: seq<char>, converters: map<seq<char>, Converter>)
    requires decltype == "INTEGER PRIMARY KEY"
    requires converters == map["INTEGER" := 3]
    ensures RowCastMapOf(ParseColnames, [Column(Some("n"), Some(decltype)), Column(None, None)], converters) == Built([Some(3), None])
  {
    var columns := [Column(Some("n"), Some(decltype)), Column(None, None)];
    assert IsCut(decltype, "INTEGER");
    CutIsUnique(decltype, CutOf(decltype), "INTEGER");
    assert ScanFrom("n", 0, 1, None) == (NoKey, None);
    assert ScanFrom("n", 0, 0, None) == (NoKey, None);
    assert CastEntries(columns, 2, None, converters) == Built([]);
    assert CastEntries(columns, 1, None, converters) == Built([None]);
  }

  /** A ']' in the second column's name meets the '[' of the first column's:
      the map is not determined. */
  lemma StaleBracketExample(first: seq<char>, second: seq<char>, converters: map<seq<char>, Converter>)
    requires first == "a [int]" && second == "b]"
    ensures RowCastMapOf(ParseColnames, [Column(Some(first), None), Column(Some(second), None)], converters) == Undetermined
  {
    var columns := [Column(Some(first), None), Column(Some(second), None)];
    var open := Some(TypeStart(0, 3));
    ScanPlain(first, 0, 0, 2, None);
    assert ScanFrom(first, 0, 2, None) == ScanFrom(first, 0, 3, open);
    ScanPlain(first, 0, 3, 6, open);
    assert first[3..6] == "int";
    assert ScanFrom(first, 0, 0, None) == (Key("int"), open);
    ScanPlain(second, 1, 0, 1, open);
    assert ScanFrom(second, 1, 0, open) == (StaleKey, open);
    assert CastEntries(columns, 1, open, converters) == Undetermined;
  }
}
