/** JSON values as the library sees them after parsing, and the text codec it relies on. */
module JsonModel {
  import opened Wrappers

  datatype Json =
    | Null
    | Bool(b: bool)
    | Int(n: int)
    | Float(mantissa: int, exponent: int)   // a double: mantissa * 2^exponent, see Representable
    | Str(s: string)
    | Arr(items: seq<Json>)
    | Obj(members: map<string, Json>)
  {
    // count(key): zero for everything that is not an object, a failed parse included
    predicate Has(key: string) {
      Obj? && key in members
    }

    function Get(key: string): Json
      requires Has(key)
    {
      members[key]
    }

    predicate IsNumberInteger() {
      Int?
    }

    // the parser stores an integer as unsigned exactly when it is not negative
    predicate IsNumberUnsigned() {
      Int? && n >= 0
    }

    predicate IsNumber() {
      Int? || Float?
    }
  }

  function Pow2(n: nat): nat {
    if n == 0 then 1 else 2 * Pow2(n - 1)
  }

  // an IEEE double, written with an odd mantissa; zero has one representation
  predicate IsDouble(mantissa: int, exponent: int) {
    || (mantissa == 0 && exponent == 0)
    || (&& mantissa % 2 != 0
        && -0x20_0000_0000_0000 < mantissa < 0x20_0000_0000_0000
        && -1074 <= exponent <= 1023
        && (exponent > 971 ==> mantissa < Pow2(1024 - exponent) && -mantissa < Pow2(1024 - exponent)))
  }

  /** The values the library can hold: integers of 64 bits, signed or unsigned, and doubles. */
  predicate Representable(j: Json) {
    match j
    case Null => true
    case Bool(_) => true
    case Int(n) => -0x8000_0000_0000_0000 <= n < 0x1_0000_0000_0000_0000
    case Float(mantissa, exponent) => IsDouble(mantissa, exponent)
    case Str(_) => true
    case Arr(items) => forall i :: 0 <= i < |items| ==> Representable(items[i])
    case Obj(members) => forall key :: key in members ==> Representable(members[key])
  }

  /** The text-level parser and printer. `what` is the explanation carried by a parse error. */
  datatype Codec = Codec(parse: string -> Option<Json>, dump: Json -> string, what: string -> string) {

    // what is assumed of them: printing can be undone, parsing yields what can be printed, and the
    // empty text is no JSON
    ghost predicate Lawful() {
      && (forall j :: Representable(j) ==> parse(dump(j)) == Some(j))
      && (forall text :: parse(text).Some? ==> Representable(parse(text).value))
      && parse("") == None
    }
  }

  lemma DumpIsNotEmpty(codec: Codec, j: Json)
    requires codec.Lawful() && Representable(j)
    ensures codec.dump(j) != "" && codec.parse(codec.dump(j)) == Some(j)
  {
  }
}
