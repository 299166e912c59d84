/** The values that travel between client, supervisor and child. A byte string is
    modelled by what it decodes to, so packing and unpacking are inverse by construction. */
module Msgpack {
  import opened Results

  datatype Value =
    | Nil
    | Bool(flag: bool)
    | Int(number: int)
    | Str(text: string)
    | Bin(data: Blob)
    | Array(items: seq<Value>)
    | Map(entries: seq<(Value, Value)>)

  /** `Empty` is the zero-length string, `Text` a string's own bytes, `Noise` any bytes that are not
      msgpack. */
  datatype Blob = Empty | Packed(value: Value) | Text(text: string) | Noise(tag: nat)

  /** The first value in the bytes. */
  function Decode(b: Blob): Option<Value> {
    match b
    case Packed(v) => Some(v)
    case Text(s) => if s == "" then None else LeadingByte(s[0] as int)
    case _ => None
  }

  /** What a text's first byte is as msgpack: a character below 128 is a small number, and the lead
      bytes of longer ones are false, true or negative numbers. Those from 0x100 to 0x7FF lead with
      a marker that takes its length from the text; that reading is not modelled. */
  function LeadingByte(c: int): Option<Value> {
    if c < 0x80 then Some(Int(c))
    else if c < 0xC0 then Some(Bool(false))
    else if c < 0x100 then Some(Bool(true))
    else if c < 0x800 then None
    else if c < 0x1_0000 then Some(Int(c / 0x1000 - 0x20))
    else Some(Int(c / 0x4_0000 - 0x10))
  }

  function AsStr(v: Value): Option<string> {
    match v
    case Str(s) => Some(s)
    case _ => None
  }

  /** The bytes of a byte string, or of a string. */
  function AsBlob(v: Value): Option<Blob> {
    match v
    case Bin(b) => Some(b)
    case Str(s) => Some(if s == "" then Empty else Text(s))
    case _ => None
  }

  function AsU64(v: Value): Option<nat> {
    match v
    case Int(n) => if 0 <= n < 0x1_0000_0000_0000_0000 then Some(n) else None
    case _ => None
  }

  function AsBool(v: Value): Option<bool> {
    match v
    case Bool(b) => Some(b)
    case _ => None
  }

  function Or<T>(o: Option<T>, default: T): T {
    match o
    case Some(v) => v
    case None => default
  }

  function AsU32(n: nat): nat { n % 0x1_0000_0000 }
}
