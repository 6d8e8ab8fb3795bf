/** The dynamically typed values of trigger payloads, subscriber data and conditions. */
module Values {
  /** A floating-point number, up to rounding. */
  datatype Number = NaN | NegInf | Finite(r: real) | PosInf {
    predicate Less(other: Number) {
      match (this, other)
      case (NaN, _) => false
      case (_, NaN) => false
      case (Finite(a), Finite(b)) => a < b
      case (NegInf, _) => !other.NegInf?
      case (_, PosInf) => !PosInf?
      case _ => false
    }

    /** Equality of numbers, which NaN does not have even with itself. */
    predicate Same(other: Number) { this == other && !NaN? }
  }

  /** `stored` marks a list or object as the database driver decodes it: a value of a type
      of its own, not the plain list or map that decoding JSON gives. */
  datatype Value =
    | Nil
    | Bool(b: bool)
    | Num(n: Number)
    | Str(s: string)
    | Arr(items: seq<Value>, stored: bool)
    | Obj(fields: map<string, Value>, stored: bool)
    | Other(text: string) // anything else

  /** Decoded from JSON: no list or object below is of a driver's type. */
  predicate FromJson(v: Value) {
    match v
    case Arr(items, stored) => !stored && forall i :: 0 <= i < |items| ==> FromJson(items[i])
    case Obj(fields, stored) => !stored && forall k :: k in fields ==> FromJson(fields[k])
    case Num(n) => n.Finite?
    case Other(_) => false
    case _ => true
  }

  /** Decoded from a stored document: every list and object is of a driver's type. */
  predicate FromStore(v: Value) {
    match v
    case Arr(items, stored) => stored && forall i :: 0 <= i < |items| ==> FromStore(items[i])
    case Obj(fields, stored) => stored && forall k :: k in fields ==> FromStore(fields[k])
    case _ => true
  }
}
