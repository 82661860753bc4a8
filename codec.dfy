/** The typed-value codec between Java objects and protocol map entries. */
module Codec {
  import opened Wrappers
  import opened JavaTypes
  import opened Proto

  /** objectToMapEntry(name, value): integers and longs pick the unsigned or the ZigZag
      field from their sign alone; `null`, `byte[]` and any other class become VOID. */
  function ObjectToMapEntry(name: string, value: Option<Value>): (e: MapEntry)
    ensures e.name == name
    ensures e.entryType == VOID <==>
              value.None? || value.value.ByteArray? || value.value.Unsupported?
    ensures value.Some? && value.value.Integer? ==>
              e.entryType == (if value.value.i >= 0 then UINT32 else SINT32)
    ensures value.Some? && value.value.Long? ==>
              e.entryType == (if value.value.l >= 0 then UINT64 else SINT64)
    ensures e.entryType != INT32 && e.entryType != INT64
  {
    match value
    case None => EmptyEntry(name, VOID)
    case Some(v) =>
      match v
      case Integer(i) =>
        if i >= 0 then EmptyEntry(name, UINT32).(uint32Val := i)
        else EmptyEntry(name, SINT32).(sint32Val := i)
      case Long(l) =>
        if l >= 0 then EmptyEntry(name, UINT64).(uint64Val := l)
        else EmptyEntry(name, SINT64).(sint64Val := l)
      case Double(d) => EmptyEntry(name, DOUBLE).(doubleVal := d)
      case Boolean(b) => EmptyEntry(name, BOOL).(boolVal := b)
      case String(s) => EmptyEntry(name, STRING).(stringVal := s)
      case ByteBuffer(bytes) => EmptyEntry(name, BYTES).(bytesVal := bytes)
      case ByteArray(_) => EmptyEntry(name, VOID)
      case Unsupported(_) => EmptyEntry(name, VOID)
  }

  /** mapEntrytoObject(entry) as the source has it: a UINT64 entry is read from the
      `sint64_val` field. */
  function MapEntryToObjectAsWritten(e: MapEntry): (v: Option<Value>)
    ensures v.None? <==> e.entryType == VOID
  {
    match e.entryType
    case VOID => None
    case INT32 => Some(Integer(e.int32Val))
    case UINT32 => Some(Integer(e.uint32Val))
    case SINT32 => Some(Integer(e.sint32Val))
    case INT64 => Some(Long(e.int64Val))
    case UINT64 => Some(Long(e.sint64Val))
    case SINT64 => Some(Long(e.sint64Val))
    case DOUBLE => Some(Double(e.doubleVal))
    case BOOL => Some(Boolean(e.boolVal))
    case STRING => Some(String(e.stringVal))
    case BYTES => Some(ByteBuffer(e.bytesVal))
  }

  /** mapEntrytoObject(entry), reading each type from its own field: null only for VOID,
      and a BYTES entry comes back as a ByteBuffer. */
  function MapEntryToObject(e: MapEntry): (v: Option<Value>)
    ensures v.None? <==> e.entryType == VOID
    ensures v.Some? ==> !v.value.ByteArray? && !v.value.Unsupported?
  {
    match e.entryType
    case VOID => None
    case INT32 => Some(Integer(e.int32Val))
    case UINT32 => Some(Integer(e.uint32Val))
    case SINT32 => Some(Integer(e.sint32Val))
    case INT64 => Some(Long(e.int64Val))
    case UINT64 => Some(Long(e.uint64Val))
    case SINT64 => Some(Long(e.sint64Val))
    case DOUBLE => Some(Double(e.doubleVal))
    case BOOL => Some(Boolean(e.boolVal))
    case STRING => Some(String(e.stringVal))
    case BYTES => Some(ByteBuffer(e.bytesVal))
  }

  /** The classes that survive a round trip through a map entry. */
  predicate Encodable(v: Value) {
    !v.ByteArray? && !v.Unsupported?
  }

  /** Decoding an encoded value gives it back, and the classes the encoder does not know
      come back as null. */
  lemma DecodeEncode(name: string, value: Option<Value>)
    ensures MapEntryToObject(ObjectToMapEntry(name, value)) ==
            if value.Some? && Encodable(value.value) then value else None
  {
  }

  /** The decoder as written loses every non-negative Long: the encoder files it under
      UINT64, whose value the decoder then reads from the unset `sint64_val`. */
  lemma DecodeAsWrittenLosesLongs(name: string, l: Int64)
    requires l > 0
    ensures ObjectToMapEntry(name, Some(Long(l))).entryType == UINT64
    ensures MapEntryToObjectAsWritten(ObjectToMapEntry(name, Some(Long(l)))) == Some(Long(0))
    ensures MapEntryToObject(ObjectToMapEntry(name, Some(Long(l)))) == Some(Long(l))
  {
  }

  /** The two decoders differ only on UINT64 entries. */
  lemma DecodersAgreeOffUint64(e: MapEntry)
    requires e.entryType != UINT64
    ensures MapEntryToObjectAsWritten(e) == MapEntryToObject(e)
  {
  }

  /** The Java map protoMapToJavaMap builds from a list of entries: entries are put in list
      order, and an entry that decodes to null is skipped. */
  function JavaMapOf(pmap: seq<MapEntry>): (m: map<string, Value>)
    ensures m.Keys <= set e | e in pmap :: e.name
  {
    if pmap == [] then map[]
    else
      var m := JavaMapOf(pmap[..|pmap| - 1]);
      var e := pmap[|pmap| - 1];
      match MapEntryToObject(e)
      case None => m
      case Some(v) => m[e.name := v]
  }

  /** The position of the last entry named `name` that is not VOID, or -1. */
  function LastLive(pmap: seq<MapEntry>, name: string): (i: int)
    ensures -1 <= i < |pmap|
    ensures i >= 0 ==> pmap[i].name == name && pmap[i].entryType != VOID
    ensures forall j | i < j < |pmap| :: pmap[j].name != name || pmap[j].entryType == VOID
  {
    if pmap == [] then -1
    else if pmap[|pmap| - 1].name == name && pmap[|pmap| - 1].entryType != VOID then |pmap| - 1
    else LastLive(pmap[..|pmap| - 1], name)
  }

  /** A name is in the Java map exactly when some entry of that name is not VOID, and it
      maps to the value of the last such entry. */
  lemma {:induction false} JavaMapOfLastLive(pmap: seq<MapEntry>, name: string)
    ensures name in JavaMapOf(pmap) <==> LastLive(pmap, name) >= 0
    ensures name in JavaMapOf(pmap) ==>
              Some(JavaMapOf(pmap)[name]) == MapEntryToObject(pmap[LastLive(pmap, name)])
  {
    if pmap != [] {
      JavaMapOfLastLive(pmap[..|pmap| - 1], name);
    }
  }

  /** protoMapToJavaMap(pmap). */
  method ProtoMapToJavaMap(pmap: seq<MapEntry>) returns (jmap: map<string, Value>)
    ensures jmap == JavaMapOf(pmap)
  {
    jmap := map[];
    for i := 0 to |pmap|
      invariant jmap == JavaMapOf(pmap[..i])
    {
      assert pmap[..i + 1][..i] == pmap[..i];
      var value := MapEntryToObject(pmap[i]);
      if value.Some? {
        jmap := jmap[pmap[i].name := value.value];
      }
    }
    assert pmap[..|pmap|] == pmap;
  }

  /** javaMapToProtoMap(jmap): one entry per key; a null map gives no entries. The list's
      order is the hash map's iteration order, so the entries form a set. */
  function JavaMapToProtoMap(jmap: Option<map<string, Option<Value>>>): (entries: set<MapEntry>)
    ensures jmap.None? ==> entries == {}
    ensures jmap.Some? ==> forall e | e in entries :: e.name in jmap.value
    ensures jmap.Some? ==> forall k | k in jmap.value :: ObjectToMapEntry(k, jmap.value[k]) in entries
    ensures jmap.Some? ==> forall e | e in entries :: e == ObjectToMapEntry(e.name, jmap.value[e.name])
  {
    match jmap
    case None => {}
    case Some(m) => set k | k in m :: ObjectToMapEntry(k, m[k])
  }

  /** Every entry of a converted map decodes back to the value it was built from, when
      that value's class is encodable. */
  lemma JavaMapRoundTrip(jmap: map<string, Option<Value>>, e: MapEntry)
    requires e in JavaMapToProtoMap(Some(jmap))
    ensures e.name in jmap
    ensures MapEntryToObject(e) ==
            if jmap[e.name].Some? && Encodable(jmap[e.name].value) then jmap[e.name] else None
  {
    DecodeEncode(e.name, jmap[e.name]);
  }
}
