/** How `_fetch_one_row` and `unicode_from_string` (Modules/_sqlite/cursor.c)
    choose the Python type of a column value: a 64-bit integer becomes a short
    int when it fits in 32 bits and a long otherwise, and text is handed out as
    a plain byte string when the fast path is on and every byte is ASCII. */
module ColumnValues {
  newtype Byte = b: int | 0 <= b < 0x100

  /** `PY_LONG_LONG`, the type `sqlite3_column_int64` returns. */
  newtype Int64 = v: int | -0x8000_0000_0000_0000 <= v < 0x8000_0000_0000_0000

  const Int32Min: int := -2147483647 - 1
  const Int32Max: int := 2147483647

  /** The Python object an integer column becomes; both carry the value. */
  datatype IntObject = ShortInt(value: int) | LongInt(value: int)

  /** The range test of cursor.c:332-336. */
  function IntegerObject(v: Int64): (r: IntObject)
    ensures r.value == v as int
    ensures r.ShortInt? <==> Int32Min <= v as int <= Int32Max
  {
    if (v as int) < Int32Min || (v as int) > Int32Max then LongInt(v as int) else ShortInt(v as int)
  }

  /** The cast `(long)intval` of the short branch loses nothing, even where
      `long` is 32 bits wide: a short int always holds a 32-bit value. */
  lemma ShortIntFitsLong(v: Int64)
    requires IntegerObject(v).ShortInt?
    ensures -0x8000_0000 <= IntegerObject(v).value < 0x8000_0000
  {
  }

  /** The two ends of the 32-bit range are short ints, their neighbours
      outside it are longs. */
  lemma IntegerBoundaries()
    ensures IntegerObject(2147483647) == ShortInt(2147483647)
    ensures IntegerObject(2147483648) == LongInt(2147483648)
    ensures IntegerObject(-2147483648) == ShortInt(-2147483648)
    ensures IntegerObject(-2147483649) == LongInt(-2147483649)
  {
  }

  /** Bit 0x80 of a byte, the test `*check & 0x80`. */
  predicate HighBitSet(b: Byte)
  {
    b >= 0x80
  }

  /** The byte at `i` of a NUL-terminated buffer whose contents are `s`. */
  function ByteAt(s: seq<Byte>, i: nat): (b: Byte)
    requires i <= |s|
    ensures i == |s| ==> b == 0
  {
    if i < |s| then s[i] else 0
  }

  /** The text a C string holds: its bytes before the first NUL. */
  predicate IsCText(s: seq<Byte>, text: seq<Byte>)
  {
    && |text| <= |s| && text == s[..|text|]
    && (forall k :: 0 <= k < |text| ==> text[k] != 0)
    && ByteAt(s, |text|) == 0
  }

  /** How a text value is handed to Python. */
  datatype TextObject = PlainString(bytes: seq<Byte>) | DecodedUtf8(bytes: seq<Byte>)

  /** The ASCII test of `unicode_from_string` (cursor.c:237-261): with
      `optimize` clear the value is always decoded; with it set, the bytes are
      scanned up to the terminator and the first one with bit 0x80 set sends
      the value to the UTF-8 decoder. `text` is what the C string holds. */
  method TextFromBytes(val: seq<Byte>, optimize: bool, ghost text: seq<Byte>) returns (r: TextObject)
    requires IsCText(val, text)
    ensures r.bytes == text
    ensures r.PlainString? <==> optimize && forall k :: 0 <= k < |text| ==> !HighBitSet(text[k])
  {
    var isAscii := false;
    if optimize {
      isAscii := true;
      var check := 0;
      while ByteAt(val, check) != 0
        invariant check <= |text|
        invariant isAscii && forall k :: 0 <= k < check ==> !HighBitSet(text[k])
        decreases |val| - check
      {
        if HighBitSet(val[check]) {
          isAscii := false;
          break;
        }
        check := check + 1;
      }
    }
    var n := CLength(val);
    if isAscii {
      r := PlainString(val[..n]);
    } else {
      r := DecodedUtf8(val[..n]);
    }
  }

  /** `strlen`: the position of the terminator. */
  method CLength(s: seq<Byte>) returns (n: nat)
    ensures n <= |s| && ByteAt(s, n) == 0 && forall k :: 0 <= k < n ==> s[k] != 0
  {
    n := 0;
    while ByteAt(s, n) != 0
      invariant n <= |s| && forall k :: 0 <= k < n ==> s[k] != 0
      decreases |s| - n
    {
      n := n + 1;
    }
  }
}
