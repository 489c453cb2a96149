/** Go values that have no static type in the source (`any`), and the JSON library. */
module Values {

  datatype Option<+T> = None | Some(value: T)

  /** A Go value held in an `any`. Decoding JSON yields only Nil, Bool, Float64, Str, List and Map;
      the other forms come from Go code. A float64 is given by its 64 bits; `Int` stands for int, int32 and
      int64, and for float32 where only the kind of a value matters. */
  datatype Any =
    | Nil
    | Bool(b: bool)
    | Float64(bits: nat)
    | Int(n: int)
    | Str(s: string)
    | List(items: seq<Any>)
    | Strings(names: seq<string>)
    | Map(entries: map<string, Any>)
    | Opaque

  type Object = map<string, Any>

  /** The bits of a float64 that is a number: the eleven bits of the exponent are not all ones. */
  predicate IsFinite(bits: nat) {
    bits < 0x1_0000_0000_0000_0000 && bits / 0x10_0000_0000_0000 % 0x800 != 0x7FF
  }

  /** The values that encoding/json can produce when it decodes into an `any`. */
  predicate IsJson(v: Any) {
    match v
    case Nil => true
    case Bool(_) => true
    case Float64(bits) => IsFinite(bits)
    case Str(_) => true
    case List(items) => forall x | x in items :: IsJson(x)
    case Map(entries) => forall k | k in entries :: IsJson(entries[k])
    case _ => false
  }

  /** The values of an int, int32 or int64. */
  predicate Is64Bit(n: int) {
    -0x8000_0000_0000_0000 <= n < 0x8000_0000_0000_0000
  }

  /** The values that encoding/json prints, as far as they are modelled. */
  predicate IsPrintable(v: Any) {
    match v
    case Float64(bits) => IsFinite(bits)
    case Int(n) => Is64Bit(n)
    case List(items) => forall x | x in items :: IsPrintable(x)
    case Map(entries) => forall k | k in entries :: IsPrintable(entries[k])
    case Opaque => false
    case _ => true
  }

  /** What becomes of a value that is printed and decoded again: integers become float64, as `round` says. */
  function Decoded(round: int -> nat, v: Any): Any
    decreases v
  {
    match v
    case Int(n) => Float64(round(n))
    case List(items) => List(DecodedAll(round, items))
    case Strings(names) => List(Texts(names))
    case Map(entries) => Map(map k | k in entries :: Decoded(round, entries[k]))
    case _ => v
  }

  function DecodedAll(round: int -> nat, items: seq<Any>): (decoded: seq<Any>)
    ensures |decoded| == |items| && forall i | 0 <= i < |items| :: decoded[i] == Decoded(round, items[i])
    decreases items
  {
    seq(|items|, i requires 0 <= i < |items| => Decoded(round, items[i]))
  }

  function Texts(names: seq<string>): (items: seq<Any>)
    ensures |items| == |names| && forall i | 0 <= i < |names| :: items[i] == Str(names[i])
  {
    seq(|names|, i requires 0 <= i < |names| => Str(names[i]))
  }

  lemma {:induction false} DecodedJson(round: int -> nat, v: Any)
    requires IsJson(v)
    ensures IsPrintable(v) && Decoded(round, v) == v
  {
    match v
    case List(items) =>
      forall x | x in items ensures IsPrintable(x) && Decoded(round, x) == x {
        DecodedJson(round, x);
      }
    case Map(entries) =>
      forall k | k in entries ensures IsPrintable(entries[k]) && Decoded(round, entries[k]) == entries[k] {
        DecodedJson(round, entries[k]);
      }
    case _ =>
  }

  /** encoding/json: printing and parsing of texts, and the float64 that the digits of an integer are read as. */
  datatype Json = Json(print_: Any -> string, parse: string -> Option<Any>, round: int -> nat) {
    /** A printed value is read back, but for its integers. */
    ghost predicate Faithful() {
      forall v | IsPrintable(v) :: parse(print_(v)) == Some(Decoded(round, v))
    }

    /** Parsing yields JSON values and nothing else. */
    ghost predicate Decodes() {
      forall text | parse(text).Some? :: IsJson(parse(text).value)
    }
  }
}
