/**
 * The values a document holds once pymongo has encoded the Python values the
 * application writes: the BSON types the two schemas talk about.
 */
module Bson {

  const Int32Min: int := -0x8000_0000
  const Int32Max: int := 0x7FFF_FFFF

  datatype Value =
    | Null
    | Bool(b: bool)
    | Int(i: int)              // a Python int: BSON int32 when it fits, else int64; pymongo refuses wider ones
    | Str(s: string)
    | Date(millis: int)        // a datetime, as milliseconds since the epoch; no calendar rules
    | Array(elems: seq<Value>)
    | Object(fields: map<string, Value>)

  /** A top-level document of a collection. */
  type Document = map<string, Value>

  /** The BSON type aliases that a `bsonType` keyword can name. */
  datatype TypeTag = TNull | TBool | TInt | TLong | TString | TDate | TArray | TObject

  predicate InInt32(i: int) {
    Int32Min <= i <= Int32Max
  }

  /** The alias MongoDB gives the stored form of a value. */
  function TypeOf(v: Value): (t: TypeTag)
    ensures t == TInt <==> v.Int? && InInt32(v.i)
    ensures t == TLong <==> v.Int? && !InInt32(v.i)
    ensures t == TString <==> v.Str?
    ensures t == TDate <==> v.Date?
  {
    match v
    case Null => TNull
    case Bool(_) => TBool
    case Int(i) => if InInt32(i) then TInt else TLong
    case Str(_) => TString
    case Date(_) => TDate
    case Array(_) => TArray
    case Object(_) => TObject
  }

  /** How an alias is spelled in a schema, and so in a status report. */
  function TagName(t: TypeTag): string {
    match t
    case TNull => "null"
    case TBool => "bool"
    case TInt => "int"
    case TLong => "long"
    case TString => "string"
    case TDate => "date"
    case TArray => "array"
    case TObject => "object"
  }
}
