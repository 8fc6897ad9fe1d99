/**
 * JavaScript values as the auth-state codec sees them, and the codec itself:
 * `BufferJSON.replacer` and `BufferJSON.reviver` (dynamoAuthState.js), with the
 * traversals `JSON.stringify(value, replacer)` and `JSON.parse(text, reviver)`
 * that apply them. Text is not modelled: `JSON.parse(JSON.stringify(v, f))`
 * is the value tree the text stands for.
 */
module Json {
  import opened Wrappers
  import opened Base64
  import Text

  /** A JavaScript value. `Bytes` is a `Buffer` or another `Uint8Array` in memory. */
  datatype Value =
    | Null
    | Bool(b: bool)
    | Num(n: int)
    | Str(s: string)
    | Arr(items: seq<Value>)
    | Obj(fields: map<string, Value>)
    | Bytes(data: seq<byte>)

  /** JavaScript truthiness. Arrays, objects and buffers are truthy even when empty. */
  predicate Truthy(v: Value) {
    match v
    case Null => false
    case Bool(b) => b
    case Num(n) => n != 0
    case Str(s) => s != ""
    case _ => true
  }

  /** Truthiness of a property read that may give `undefined` (`None`). */
  predicate Present(p: Option<Value>) {
    p.Some? && Truthy(p.value)
  }

  /** `v.key` (or `v?.key`): only objects have named members here. */
  function Member(v: Value, key: string): (r: Option<Value>)
    ensures r.Some? <==> v.Obj? && key in v.fields
  {
    if v.Obj? && key in v.fields then Some(v.fields[key]) else None
  }

  const BufferTag: Value := Str("Buffer")

  /** The store-safe form of a buffer: `{type: "Buffer", data: <base64>}`. */
  function Tagged(encoded: string): Value {
    Obj(map["type" := BufferTag, "data" := Str(encoded)])
  }

  /** `Buffer.prototype.toJSON`: `{type: "Buffer", data: [byte, ...]}`. */
  function BufferToJson(bytes: seq<byte>): Value {
    Obj(map["type" := BufferTag, "data" := Arr(seq(|bytes|, i requires 0 <= i < |bytes| => Num(bytes[i] as int)))])
  }

  /** Storing a value into a `Uint8Array` element: numbers wrap modulo 256, `true` is 1, the rest 0. */
  function ToUint8(v: Value): byte {
    match v
    case Num(n) => (n % 256) as byte
    case Bool(b) => if b then 1 else 0
    case _ => 0
  }

  function Utf8Char(c: char): (r: seq<byte>)
    ensures 1 <= |r| <= 4
  {
    var n := c as int;
    if n < 0x80 then [n as byte]
    else if n < 0x800 then [(0xC0 + n / 0x40) as byte, (0x80 + n % 0x40) as byte]
    else if n < 0x1_0000 then
      [(0xE0 + n / 0x1000) as byte, (0x80 + n / 0x40 % 0x40) as byte, (0x80 + n % 0x40) as byte]
    else
      [(0xF0 + n / 0x4_0000) as byte, (0x80 + n / 0x1000 % 0x40) as byte,
       (0x80 + n / 0x40 % 0x40) as byte, (0x80 + n % 0x40) as byte]
  }

  /** `Buffer.from(s)` for a string: its UTF-8 encoding. */
  function Utf8(s: string): seq<byte> {
    if s == [] then [] else Utf8Char(s[0]) + Utf8(s[1..])
  }

  /** The bytes of an array, element by element, as `Buffer.from(array)` copies them. */
  function ArrayBytes(items: seq<Value>): (r: seq<byte>)
    ensures |r| == |items|
    ensures forall i | 0 <= i < |items| :: r[i] == ToUint8(items[i])
  {
    seq(|items|, i requires 0 <= i < |items| => ToUint8(items[i]))
  }

  /** Element `i` of an array-like object: its member `"i"`, where a missing one reads `undefined` and stores 0. */
  function ElementByte(fields: map<string, Value>, i: nat): byte {
    var key := Text.NatToString(i);
    if key in fields then ToUint8(fields[key]) else 0
  }

  /** `Buffer.from` on an array-like object `{length: n, "0": …, "1": …}`: `n` bytes, none when `n` is not positive. */
  function ArrayLikeBytes(fields: map<string, Value>, n: int): (r: seq<byte>)
    ensures |r| == if n <= 0 then 0 else n
    ensures forall i: nat | i < |r| :: r[i] == ElementByte(fields, i)
  {
    if n <= 0 then [] else seq(n, i requires 0 <= i < n => ElementByte(fields, i))
  }

  /** The object `Buffer.prototype.toJSON` produces: `{type: "Buffer", data: [...]}`. */
  predicate IsBufferJson(v: Value) {
    Member(v, "type") == Some(BufferTag) && Member(v, "data").Some? && Member(v, "data").value.Arr?
  }

  /**
   * `Buffer.from(v)` with one argument; `None` where it throws a `TypeError`.
   * An object with a `length` member is taken as array-like before its `type`
   * is looked at, and a `length` that is not a number gives an empty buffer.
   */
  function BufferFrom(v: Value): (r: Option<seq<byte>>)
    ensures r.None? <==> v.Null? || v.Bool? || v.Num? || (v.Obj? && "length" !in v.fields && !IsBufferJson(v))
    ensures v.Bytes? ==> r == Some(v.data)
    ensures v.Arr? ==> r == Some(ArrayBytes(v.items))
    ensures v.Obj? && "length" in v.fields && !v.fields["length"].Num? ==> r == Some([])
    ensures v.Obj? && "length" !in v.fields && IsBufferJson(v) ==> r == Some(ArrayBytes(v.fields["data"].items))
  {
    match v
    case Bytes(b) => Some(b)
    case Str(s) => Some(Utf8(s))
    case Arr(items) => Some(ArrayBytes(items))
    case Obj(fields) =>
      if "length" in fields then
        match fields["length"]
        case Num(n) => Some(ArrayLikeBytes(fields, n))
        case _ => Some([])
      else if IsBufferJson(v) then Some(ArrayBytes(fields["data"].items))
      else None
    case _ => None
  }

  /** The replacer's test: `Buffer.isBuffer(value) || value instanceof Uint8Array || value?.type === "Buffer"`. */
  predicate IsBufferLike(v: Value) {
    v.Bytes? || Member(v, "type") == Some(BufferTag)
  }

  /** What the replacer copies bytes from: `value?.data || value`. */
  function ReplacerSource(v: Value): Value {
    if Present(Member(v, "data")) then Member(v, "data").value else v
  }

  /**
   * `BufferJSON.replacer(key, value)`; `None` where `Buffer.from` throws.
   * A buffer-like value becomes the tagged base64 wrapper, anything else is returned as it is.
   */
  function Replacer(v: Value): (r: Option<Value>)
    ensures !IsBufferLike(v) ==> r == Some(v)
    ensures IsBufferLike(v) ==> (r.Some? <==> BufferFrom(ReplacerSource(v)).Some?)
    ensures IsBufferLike(v) && r.Some? ==> r.value == Tagged(Encode(BufferFrom(ReplacerSource(v)).value))
  {
    if IsBufferLike(v) then
      match BufferFrom(ReplacerSource(v))
      case None => None
      case Some(bytes) => Some(Tagged(Encode(bytes)))
    else
      Some(v)
  }

  /** A `Uint8Array` reaches the replacer as it is, a `Buffer` through its `toJSON`: both give the same wrapper. */
  lemma ReplacerOnBuffers(bytes: seq<byte>)
    ensures Replacer(Bytes(bytes)) == Some(Tagged(Encode(bytes)))
    ensures Replacer(BufferToJson(bytes)) == Some(Tagged(Encode(bytes)))
  {
    var items := seq(|bytes|, i requires 0 <= i < |bytes| => Num(bytes[i] as int));
    assert ReplacerSource(BufferToJson(bytes)) == Arr(items);
    assert ArrayBytes(items) == bytes;
  }

  /** No buffer anywhere: what JSON text can carry. */
  predicate JsonSafe(v: Value) {
    match v
    case Bytes(_) => false
    case Arr(items) => forall i | 0 <= i < |items| :: JsonSafe(items[i])
    case Obj(fields) => forall k | k in fields :: JsonSafe(fields[k])
    case _ => true
  }

  /**
   * `JSON.parse(JSON.stringify(v, BufferJSON.replacer))`; `None` where the replacer throws.
   * A `Buffer` is first turned into its `toJSON` form; the replacer's wrapper has only
   * string members, which it passes through.
   */
  function Stringify(v: Value): (r: Option<Value>)
    ensures r.Some? ==> JsonSafe(r.value)
    decreases v
  {
    if v.Bytes? then Replacer(BufferToJson(v.data))
    else if IsBufferLike(v) then Replacer(v)
    else
      // the replacer returns any other value as it is, and stringify goes on into its members
      match v
      case Arr(items) =>
        if forall i | 0 <= i < |items| :: Stringify(items[i]).Some?
        then Some(Arr(seq(|items|, i requires 0 <= i < |items| => Stringify(items[i]).value)))
        else None
      case Obj(fields) =>
        if forall k | k in fields :: Stringify(fields[k]).Some?
        then Some(Obj(map k | k in fields :: Stringify(fields[k]).value))
        else None
      case _ => Some(v)
  }

  /** `JSON.parse(JSON.stringify(v))` with neither replacer nor reviver: buffers become their `toJSON` form. */
  function Plain(v: Value): (r: Value)
    ensures JsonSafe(r)
  {
    match v
    case Bytes(bytes) => BufferToJson(bytes)
    case Arr(items) => Arr(seq(|items|, i requires 0 <= i < |items| => Plain(items[i])))
    case Obj(fields) => Obj(map k | k in fields :: Plain(fields[k]))
    case _ => v
  }

  lemma {:induction false} PlainOfJsonSafe(v: Value)
    requires JsonSafe(v)
    ensures Plain(v) == v
  {
    match v
    case Arr(items) =>
      forall i | 0 <= i < |items| ensures Plain(items[i]) == items[i] { PlainOfJsonSafe(items[i]); }
      assert seq(|items|, i requires 0 <= i < |items| => Plain(items[i])) == items;
    case Obj(fields) =>
      forall k | k in fields ensures Plain(fields[k]) == fields[k] { PlainOfJsonSafe(fields[k]); }
      assert (map k | k in fields :: Plain(fields[k])) == fields;
    case _ =>
  }

  /** The reviver's test: `value.buffer === true || value.type === "Buffer"` on a non-null object. */
  predicate IsTagged(v: Value) {
    Member(v, "buffer") == Some(Bool(true)) || Member(v, "type") == Some(BufferTag)
  }

  /** What the reviver decodes: `value.data || value.value`. */
  function ReviverSource(v: Value): Option<Value> {
    if Present(Member(v, "data")) then Member(v, "data") else Member(v, "value")
  }

  /**
   * `BufferJSON.reviver(key, value)`; `None` where `Buffer.from` throws.
   * A tagged object becomes a buffer: string data is base64-decoded, missing or
   * falsy data gives an empty buffer, anything else goes through `Buffer.from`.
   */
  function Reviver(v: Value): (r: Option<Value>)
    ensures !IsTagged(v) ==> r == Some(v)
    ensures IsTagged(v) && r.Some? ==> r.value.Bytes?
    ensures IsTagged(v) && ReviverSource(v).Some? && ReviverSource(v).value.Str?
            ==> r == Some(Bytes(Decode(ReviverSource(v).value.s)))
    ensures IsTagged(v) && !Present(ReviverSource(v)) ==> r == Some(Bytes([]))
    ensures IsTagged(v) && Present(ReviverSource(v)) && ReviverSource(v).value.Arr?
            ==> r == Some(Bytes(ArrayBytes(ReviverSource(v).value.items)))
  {
    if IsTagged(v) then
      var source := ReviverSource(v);
      if source.Some? && source.value.Str? then Some(Bytes(Decode(source.value.s)))
      else if !Present(source) then Some(Bytes([]))
      else
        match BufferFrom(source.value)
        case None => None
        case Some(bytes) => Some(Bytes(bytes))
    else
      Some(v)
  }

  /** The reviver undoes the replacer's wrapper, the empty buffer (whose `data` is the falsy `""`) included. */
  lemma ReviverOfTagged(bytes: seq<byte>)
    ensures Reviver(Tagged(Encode(bytes))) == Some(Bytes(bytes))
  {
    DecodeEncode(bytes);
    if bytes == [] {
      assert ReviverSource(Tagged(Encode(bytes))) == None;
    }
  }

  /**
   * `JSON.parse(text, BufferJSON.reviver)` over the value the text stands for:
   * members are revived before the object or array that holds them, the root last.
   */
  function Parse(v: Value): Option<Value> {
    match v
    case Arr(items) =>
      if forall i | 0 <= i < |items| :: Parse(items[i]).Some?
      then Reviver(Arr(seq(|items|, i requires 0 <= i < |items| => Parse(items[i]).value)))
      else None
    case Obj(fields) =>
      if forall k | k in fields :: Parse(fields[k]).Some?
      then Reviver(Obj(map k | k in fields :: Parse(fields[k]).value))
      else None
    case _ => Reviver(v)
  }

  /** No object, at any depth, that either codec function would take for a buffer wrapper. */
  predicate TagFree(v: Value) {
    match v
    case Arr(items) => forall i | 0 <= i < |items| :: TagFree(items[i])
    case Obj(fields) => !IsTagged(v) && forall k | k in fields :: TagFree(fields[k])
    case _ => true
  }

  /** A buffer is stored as the tagged wrapper, and the wrapper parses back to the buffer. */
  lemma RoundTripBytes(bytes: seq<byte>)
    ensures Stringify(Bytes(bytes)) == Some(Tagged(Encode(bytes)))
    ensures Parse(Tagged(Encode(bytes))) == Some(Bytes(bytes))
  {
    ReplacerOnBuffers(bytes);
    var t := Tagged(Encode(bytes));
    assert Parse(Str(Encode(bytes))) == Some(Str(Encode(bytes)));
    assert Parse(BufferTag) == Some(BufferTag);
    ParseMembers(t.fields, t.fields);
    ReviverOfTagged(bytes);
  }

  /** An array that is not a wrapper round-trips when each of its elements does. */
  lemma RoundTripArr(items: seq<Value>)
    requires forall i | 0 <= i < |items| :: Stringify(items[i]).Some? && Parse(Stringify(items[i]).value) == Some(items[i])
    ensures Stringify(Arr(items)).Some? && Parse(Stringify(Arr(items)).value) == Some(Arr(items))
  {
    var encoded := seq(|items|, i requires 0 <= i < |items| => Stringify(items[i]).value);
    assert Stringify(Arr(items)) == Some(Arr(encoded));
    assert seq(|encoded|, i requires 0 <= i < |encoded| => Parse(encoded[i]).value) == items;
  }

  /** Stringify of an object that is not a wrapper: the same keys, each member stringified. */
  lemma StringifyObj(fields: map<string, Value>)
    requires !IsTagged(Obj(fields))
    requires forall k | k in fields :: Stringify(fields[k]).Some?
    ensures Stringify(Obj(fields)).Some? && Stringify(Obj(fields)).value.Obj?
    ensures Stringify(Obj(fields)).value.fields.Keys == fields.Keys
    ensures forall k | k in fields :: Stringify(Obj(fields)).value.fields[k] == Stringify(fields[k]).value
  {
    assert !IsBufferLike(Obj(fields));
  }

  /** Parse of an object whose members each parse to the members of `fields`: the reviver sees `fields`. */
  lemma ParseMembers(encoded: map<string, Value>, fields: map<string, Value>)
    requires encoded.Keys == fields.Keys
    requires forall k | k in encoded :: Parse(encoded[k]) == Some(fields[k])
    ensures Parse(Obj(encoded)) == Reviver(Obj(fields))
  {
    var revived := map k | k in encoded :: Parse(encoded[k]).value;
    assert revived == fields;
  }

  /** An object that is not a wrapper round-trips when each of its members does. */
  lemma RoundTripObj(fields: map<string, Value>)
    requires !IsTagged(Obj(fields))
    requires forall k | k in fields :: Stringify(fields[k]).Some? && Parse(Stringify(fields[k]).value) == Some(fields[k])
    ensures Stringify(Obj(fields)).Some? && Parse(Stringify(Obj(fields)).value) == Some(Obj(fields))
  {
    StringifyObj(fields);
    ParseMembers(Stringify(Obj(fields)).value.fields, fields);
  }

  /**
   * The codec round trip: encoding a value for the store and reviving it gives
   * the value back, buffers at any depth included, as long as no plain object
   * in it looks like a wrapper.
   */
  lemma {:induction false} RoundTrip(v: Value)
    requires TagFree(v)
    ensures Stringify(v).Some? && Parse(Stringify(v).value) == Some(v)
  {
    match v
    case Bytes(bytes) =>
      RoundTripBytes(bytes);
    case Arr(items) =>
      forall i | 0 <= i < |items|
        ensures Stringify(items[i]).Some? && Parse(Stringify(items[i]).value) == Some(items[i])
      {
        RoundTrip(items[i]);
      }
      RoundTripArr(items);
    case Obj(fields) =>
      forall k | k in fields
        ensures Stringify(fields[k]).Some? && Parse(Stringify(fields[k]).value) == Some(fields[k])
      {
        RoundTrip(fields[k]);
      }
      RoundTripObj(fields);
    case _ =>
  }
}
