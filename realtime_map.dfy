/** A string-keyed map of typed values that keeps a running estimate of the
    number of bytes its entries take once encoded with Protocol Buffers. */
module RealtimeMaps {
  import opened Wrappers
  import opened JavaTypes

  /* ---------------------------------------------------------------------
     Reference definitions: the Protocol Buffers varint sizes.
     --------------------------------------------------------------------- */

  /** Number of bytes of the base-128 varint that encodes `u`. */
  function VarintLength(u: nat): (n: nat)
    ensures n >= 1
  {
    if u < 128 then 1 else 1 + VarintLength(u / 128)
  }

  /** The ZigZag mapping of the `sint32`/`sint64` encodings: 0, -1, 1, -2, ... become 0, 1, 2, 3, ... */
  function ZigZag(v: int): (u: nat)
    ensures v >= 0 ==> u == 2 * v
    ensures v < 0 ==> u == -2 * v - 1
  {
    if v >= 0 then 2 * v else -2 * v - 1
  }

  /** 128 to the power `n`, whose varint takes `n + 1` bytes. */
  function Pow128(n: nat): (p: nat)
    ensures p >= 1
    ensures VarintLength(p) == n + 1
  {
    if n == 0 then 1 else 128 * Pow128(n - 1)
  }

  /** The varint of `u` has `n` bytes exactly when `u` lies in [128^(n-1), 128^n). */
  lemma {:induction false} VarintLengthIn(u: nat, n: nat)
    requires n >= 1
    requires n == 1 || Pow128(n - 1) <= u
    requires u < Pow128(n)
    ensures VarintLength(u) == n
  {
    if n > 1 {
      assert Pow128(n - 1) == 128 * Pow128(n - 2);
      assert 128 <= u;
      if n - 1 > 1 {
        assert Pow128(n - 2) == 128 * Pow128(n - 3);
      }
      VarintLengthIn(u / 128, n - 1);
    }
  }

  /* ---------------------------------------------------------------------
     The size estimates of RealtimeMap.getNumberOfBytes and getSerializedSize.
     --------------------------------------------------------------------- */

  /** getNumberOfBytes(Integer): cut-offs for negative and for non-negative values. */
  function IntegerSize(v: Int32): (n: nat)
    ensures 1 <= n <= 5
  {
    if v < 0 then
      if v >= -0x40 then 1
      else if v >= -0x2000 then 2
      else if v >= -0x10_0000 then 3
      else if v >= -0x800_0000 then 4
      else 5
    else
      if v < 0x80 then 1
      else if v < 0x4000 then 2
      else if v < 0x20_0000 then 3
      else if v < 0x1000_0000 then 4
      else 5
  }

  /** The `int` estimate is the varint size: plain base-128 for non-negative values,
      ZigZag for negative ones. */
  lemma IntegerSizeIsVarintSize(v: Int32)
    ensures IntegerSize(v) == VarintLength(if v >= 0 then v else ZigZag(v))
  {
    var u: nat := if v >= 0 then v else ZigZag(v);
    assert Pow128(1) == 0x80 && Pow128(2) == 0x4000 && Pow128(3) == 0x20_0000;
    assert Pow128(4) == 0x1000_0000 && Pow128(5) == 0x8_0000_0000;
    VarintLengthIn(u, IntegerSize(v));
  }

  /** getNumberOfBytes(Long). The 4-byte test of the source compares with the `int`
      literal 0x80000000, which is negative once widened to `long`, so it never holds for
      a non-negative value; likewise the 9-byte test compares with Long.MIN_VALUE. */
  function LongSize(v: Int64): (n: int)
    ensures 1 <= n <= 10
  {
    if v < 0 then
      if v >= -0x40 then 1
      else if v >= -0x2000 then 2
      else if v >= -0x10_0000 then 3
      else if v >= -0x800_0000 then 4
      else if v >= -0x4_0000_0000 then 5
      else if v >= -0x200_0000_0000 then 6
      else if v >= -0x1_0000_0000_0000 then 7
      else if v >= -0x80_0000_0000_0000 then 8
      else if v >= -0x4000_0000_0000_0000 then 9
      else 10
    else
      if v < 0x80 then 1
      else if v < 0x4000 then 2
      else if v < 0x20_0000 then 3
      else if v < ToInt(0x8000_0000) then 4
      else if v < 0x8_0000_0000 then 5
      else if v < 0x400_0000_0000 then 6
      else if v < 0x2_0000_0000_0000 then 7
      else if v < 0x100_0000_0000_0000 then 8
      else if v < -0x8000_0000_0000_0000 then 9  // the literal 0x8000000000000000L is Long.MIN_VALUE
      else 10
  }

  /** The `long` estimate is the varint size except on two ranges of non-negative
      values, where it is one byte too large: [0x200000, 0x10000000) (5 instead of 4)
      and [0x0100000000000000, 2^63) (10 instead of 9). */
  lemma LongSizeVersusVarintSize(v: Int64)
    ensures LongSize(v) == VarintLength(if v >= 0 then v else ZigZag(v))
                           + (if 0x20_0000 <= v < 0x1000_0000 || 0x100_0000_0000_0000 <= v then 1 else 0)
  {
    var u: nat := if v >= 0 then v else ZigZag(v);
    assert Pow128(1) == 0x80 && Pow128(2) == 0x4000 && Pow128(3) == 0x20_0000;
    assert Pow128(4) == 0x1000_0000 && Pow128(5) == 0x8_0000_0000;
    assert Pow128(6) == 0x400_0000_0000 && Pow128(7) == 0x2_0000_0000_0000;
    assert Pow128(8) == 0x100_0000_0000_0000 && Pow128(9) == 0x8000_0000_0000_0000;
    assert Pow128(10) == 0x40_0000_0000_0000_0000;
    if 0x20_0000 <= v < 0x1000_0000 {
      VarintLengthIn(u, 4);
    } else if 0x100_0000_0000_0000 <= v {
      VarintLengthIn(u, 9);
    } else {
      VarintLengthIn(u, LongSize(v));
    }
  }

  /** A value getSerializedSize(key, value) accepts; any other class throws ClassCastException.
      A `ByteBuffer` is not one of them: only `byte[]` is. */
  predicate Supported(v: Value) {
    !v.ByteBuffer? && !v.Unsupported?
  }

  /** Bytes of a length-prefixed field of length `len`, as the source estimates it. */
  function PrefixedLength(len: nat): (n: nat)
    ensures n == len + 1 || n == len + 2
    ensures n == len + 1 <==> len < 128
  {
    len + (if len < 128 then 1 else 2)
  }

  /** String.length(): UTF-16 code units, two for a character outside the Basic
      Multilingual Plane. */
  function Utf16Length(s: string): (n: nat)
    ensures |s| <= n <= 2 * |s|
    ensures n == |s| <==> forall i | 0 <= i < |s| :: s[i] as int < 0x10000
  {
    if s == [] then 0
    else (if s[0] as int < 0x10000 then 1 else 2) + Utf16Length(s[1..])
  }

  /** getSerializedSize(key, value) for a supported value. */
  function EntrySize(key: string, v: Value): (n: nat)
    requires Supported(v)
    ensures n >= PrefixedLength(Utf16Length(key)) + 1
  {
    PrefixedLength(Utf16Length(key)) +
      match v
      case Integer(i) => IntegerSize(i)
      case Long(l) => LongSize(l)
      case Double(_) => 8
      case Boolean(_) => 1
      case String(s) => PrefixedLength(Utf16Length(s))
      case ByteArray(b) => PrefixedLength(|b|)
  }

  /** getSerializedSize(key, value), with its ClassCastException for other classes. */
  function SerializedEntrySize(key: string, v: Value): (r: Outcome<nat>)
    ensures r.Thrown? <==> !Supported(v)
    ensures r.Thrown? ==> r.exception == ClassCastException
    ensures r.Returned? ==> r.value == EntrySize(key, v)
  {
    if Supported(v) then Returned(EntrySize(key, v)) else Thrown(ClassCastException)
  }

  ghost predicate AllSupported(m: map<string, Value>) {
    forall k | k in m :: Supported(m[k])
  }

  /** Sum of the entry sizes of a map whose values are all supported. */
  ghost function SumSizes(m: map<string, Value>): nat
    requires AllSupported(m)
    decreases |m|
  {
    if m == map[] then 0
    else
      var k :| k in m;
      assert |m - {k}| < |m| by { assert (m - {k}).Keys < m.Keys; }
      EntrySize(k, m[k]) + SumSizes(m - {k})
  }

  /** The sum does not depend on the key the definition picks first: any key can be
      taken out of it. */
  lemma {:induction false} SumSizesWithout(m: map<string, Value>, k: string)
    requires AllSupported(m) && k in m
    ensures SumSizes(m) == EntrySize(k, m[k]) + SumSizes(m - {k})
    decreases |m|
  {
    var j :| j in m && SumSizes(m) == EntrySize(j, m[j]) + SumSizes(m - {j});
    if j != k {
      assert |m - {j}| < |m| by { assert (m - {j}).Keys < m.Keys; }
      SumSizesWithout(m - {j}, k);
      assert |m - {k}| < |m| by { assert (m - {k}).Keys < m.Keys; }
      SumSizesWithout(m - {k}, j);
      assert m - {j} - {k} == m - {k} - {j};
    }
  }

  /** Adding a key that is absent adds exactly its entry size. */
  lemma SumSizesInsert(m: map<string, Value>, k: string, v: Value)
    requires AllSupported(m) && Supported(v) && k !in m
    ensures AllSupported(m[k := v])
    ensures SumSizes(m[k := v]) == SumSizes(m) + EntrySize(k, v)
  {
    SumSizesWithout(m[k := v], k);
    assert m[k := v] - {k} == m;
  }

  /** The kinds the getAs* accessors ask for. */
  datatype Kind = IntegerKind | LongKind | DoubleKind | BooleanKind | StringKind | ByteArrayKind

  predicate OfKind(v: Value, kind: Kind) {
    match kind
    case IntegerKind => v.Integer?
    case LongKind => v.Long?
    case DoubleKind => v.Double?
    case BooleanKind => v.Boolean?
    case StringKind => v.String?
    case ByteArrayKind => v.ByteArray?
  }

  /** RealtimeMap: a HashMap plus the running `serialized_size`. */
  class RealtimeMap {
    var entries: map<string, Value>
    var serializedSize: int

    /** Every stored value is of a supported class, and the running size is the sum of
        the entry sizes. */
    ghost predicate Valid()
      reads this
    {
      AllSupported(entries) && serializedSize == SumSizes(entries)
    }

    constructor ()
      ensures Valid() && entries == map[] && serializedSize == 0
    {
      entries := map[];
      serializedSize := 0;
    }

    /** getSerializedSize(): the entry sizes plus four bytes of framing per entry. */
    function GetSerializedSize(): (n: int)
      reads this
      requires Valid()
      ensures n == SumSizes(entries) + 4 * |entries|
      ensures n >= 6 * |entries|
    {
      SumSizesAtLeast(entries);
      serializedSize + 4 * |entries|
    }

    function Size(): (n: nat)
      reads this
      ensures n == |entries.Keys|
    {
      |entries|
    }

    function Get(key: string): (r: Option<Value>)
      reads this
      ensures r.Some? <==> key in entries
      ensures r.Some? ==> r.value == entries[key]
    {
      Lookup(entries, key)
    }

    function ContainsKey(key: string): (b: bool)
      reads this
      ensures b <==> Get(key).Some?
    {
      key in entries
    }

    /** getAsInteger, getAsLong, getAsDouble, getAsBoolean, getAsString, getAsByteArray:
        null when the key is absent, the value when it is of the asked kind, and
        ClassCastException otherwise. */
    function GetAs(key: string, kind: Kind): (r: Outcome<Option<Value>>)
      reads this
      ensures r.Thrown? <==> key in entries && !OfKind(entries[key], kind)
      ensures r.Thrown? ==> r.exception == ClassCastException
      ensures r.Returned? ==> r.value == Get(key)
      ensures r.Returned? && r.value.Some? ==> OfKind(r.value.value, kind)
    {
      if key !in entries || OfKind(entries[key], kind) then Returned(Lookup(entries, key))
      else Thrown(ClassCastException)
    }

    /** remove(key): returns the previous value; the running size drops by its entry size. */
    method Remove(key: string) returns (old_value: Option<Value>)
      requires Valid()
      modifies this
      ensures Valid()
      ensures old_value == Lookup(old(entries), key)
      ensures entries == old(entries) - {key}
      ensures old_value.None? ==> serializedSize == old(serializedSize) && entries == old(entries)
      ensures old_value.Some? ==> serializedSize == old(serializedSize) - EntrySize(key, old_value.value)
    {
      old_value := Lookup(entries, key);
      if old_value.None? {
        assert entries - {key} == entries;
        return;
      }
      SumSizesWithout(entries, key);
      serializedSize := serializedSize - EntrySize(key, old_value.value);
      entries := entries - {key};
    }

    /** put(key, value): removes the old mapping first; a null value leaves it removed,
        a supported value is stored, and any other class throws ClassCastException after
        the old mapping is already gone. */
    method Put(key: string, value: Option<Value>) returns (r: Outcome<Option<Value>>)
      requires Valid()
      modifies this
      ensures Valid()
      ensures r.Thrown? <==> value.Some? && !Supported(value.value)
      ensures r.Thrown? ==> r.exception == ClassCastException
      ensures r.Returned? ==> r.value == Lookup(old(entries), key)
      ensures entries == if value.Some? && Supported(value.value)
                         then old(entries)[key := value.value]
                         else old(entries) - {key}
    {
      var old_value := Remove(key);
      if value.Some? {
        var size := SerializedEntrySize(key, value.value);
        if size.Thrown? {
          return Thrown(size.exception);
        }
        SumSizesInsert(entries, key, value.value);
        serializedSize := serializedSize + size.value;
        entries := entries[key := value.value];
      }
      r := Returned(old_value);
    }

    /** clear(): no entries and no running size. */
    method Clear()
      requires Valid()
      modifies this
      ensures Valid() && entries == map[] && serializedSize == 0
    {
      serializedSize := 0;
      entries := map[];
    }
  }

  /** Every entry costs at least two bytes of key prefix and value. */
  lemma {:induction false} SumSizesAtLeast(m: map<string, Value>)
    requires AllSupported(m)
    ensures SumSizes(m) >= 2 * |m|
    decreases |m|
  {
    if m != map[] {
      var k :| k in m;
      SumSizesWithout(m, k);
      assert |m - {k}| == |m| - 1 by { assert (m - {k}).Keys == m.Keys - {k}; }
      SumSizesAtLeast(m - {k});
    }
  }

  /** UnmodifiableRealtimeMap: a read-only view of another map. Its mutators throw
      UnsupportedOperationException and change nothing; its readers delegate. */
  class UnmodifiableRealtimeMap {
    const inner: RealtimeMap

    constructor (m: RealtimeMap)
      ensures inner == m
    {
      inner := m;
    }

    function Get(key: string): (r: Option<Value>)
      reads this, inner
      ensures r == Lookup(inner.entries, key)
    {
      inner.Get(key)
    }

    function GetAs(key: string, kind: Kind): (r: Outcome<Option<Value>>)
      reads this, inner
      ensures r.Thrown? <==> key in inner.entries && !OfKind(inner.entries[key], kind)
      ensures r.Returned? ==> r.value == Lookup(inner.entries, key)
    {
      inner.GetAs(key, kind)
    }

    function Size(): (n: nat)
      reads this, inner
      ensures n == |inner.entries|
    {
      inner.Size()
    }

    /** getSerializedSize() as the source has it: the view does not override it, so it
        reads the view's own inherited fields, which its constructor left empty. */
    function GetSerializedSizeAsWritten(): (n: int)
      ensures n == 0
    {
      0 + 4 * 0
    }

    /** getSerializedSize() delegating to the wrapped map, as the other readers do. */
    function GetSerializedSize(): (n: int)
      reads this, inner
      requires inner.Valid()
      ensures n == SumSizes(inner.entries) + 4 * |inner.entries|
    {
      inner.GetSerializedSize()
    }

    method Put(key: string, value: Option<Value>) returns (r: Outcome<Option<Value>>)
      ensures r == Thrown(UnsupportedOperationException)
    {
      r := Thrown(UnsupportedOperationException);
    }

    method Remove(key: string) returns (r: Outcome<Option<Value>>)
      ensures r == Thrown(UnsupportedOperationException)
    {
      r := Thrown(UnsupportedOperationException);
    }

    method Clear() returns (r: Outcome<()>)
      ensures r == Thrown(UnsupportedOperationException)
    {
      r := Thrown(UnsupportedOperationException);
    }
  }

  /** The view of a non-empty map reports a size of 0, while the map it wraps reports
      at least six bytes per entry. */
  lemma UnmodifiableSizeIsWrong(view: UnmodifiableRealtimeMap)
    requires view.inner.Valid() && |view.inner.entries| > 0
    ensures view.GetSerializedSizeAsWritten() == 0
    ensures view.GetSerializedSize() >= 6
  {
    SumSizesAtLeast(view.inner.entries);
  }
}
