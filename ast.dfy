/**
 * The syntax tree the parser builds (src/ast/ast.go). Go's open `Value interface{}`
 * becomes the closed datatype Value; a Go nil Value becomes None.
 */
module Ast {
  import opened Wrappers

  /** A property key: the raw text of a String token. */
  datatype Identifier = Identifier(value: string)

  /** What a Literal holds: a string, a float64 (as its IEEE bit pattern) or a bool. The JSON null is the string "null". */
  datatype Scalar = Str(s: string) | Num(bits: bv64) | Bool(b: bool)

  /**
   * Object.properties and Array.elements are Go's `Children` slices, in insertion order.
   * An array element or a property value is None where Go stores a nil Value.
   */
  datatype Value =
    | Object(properties: seq<Property>, start: int, end: int)
    | Array(elements: seq<Option<Value>>, start: int, end: int)
    | Literal(scalar: Scalar)

  /** Exactly one key and one (possibly absent) value. */
  datatype Property = Property(key: Identifier, value: Option<Value>)

  /** The Go zero value of a Property (`ast.Property{}`): empty key, nil value. */
  const EmptyProperty: Property := Property(Identifier(""), None)

  /** Go's RootNodeType: ObjectRoot is iota 0, ArrayRoot is 1. */
  datatype RootNodeType = ObjectRoot | ArrayRoot
  {
    function Code(): (n: int)
      ensures 0 <= n <= 1
    {
      if ObjectRoot? then 0 else 1
    }
  }

  datatype RootNode = RootNode(rootValue: Option<Value>, kind: RootNodeType)

  /** `ast.RootNode{}`: no value, and the zero root kind, which is ObjectRoot. */
  const EmptyRoot: RootNode := RootNode(None, ObjectRoot)

  /**
   * States of the object, property and array machines. Go numbers all eleven with one
   * iota sequence of a single `state` type; Code() gives that number, so the three
   * machines' ranges are disjoint.
   */
  datatype ObjectState = ObjStart | ObjOpen | ObjProperty | ObjComma
  {
    function Code(): (n: nat)
      ensures n < 4
    {
      match this
      case ObjStart => 0
      case ObjOpen => 1
      case ObjProperty => 2
      case ObjComma => 3
    }
  }

  datatype PropertyState = PropertyStart | PropertyKey | PropertyColon
  {
    function Code(): (n: nat)
      ensures 4 <= n < 7
    {
      match this
      case PropertyStart => 4
      case PropertyKey => 5
      case PropertyColon => 6
    }
  }

  datatype ArrayState = ArrayStart | ArrayOpen | ArrayValue | ArrayComma
  {
    function Code(): (n: nat)
      ensures 7 <= n < 11
    {
      match this
      case ArrayStart => 7
      case ArrayOpen => 8
      case ArrayValue => 9
      case ArrayComma => 10
    }
  }

  /** The eleven state constants are pairwise distinct numbers. */
  lemma StateCodesDistinct(o1: ObjectState, o2: ObjectState, p1: PropertyState, p2: PropertyState,
                           a1: ArrayState, a2: ArrayState)
    ensures o1.Code() == o2.Code() ==> o1 == o2
    ensures p1.Code() == p2.Code() ==> p1 == p2
    ensures a1.Code() == a2.Code() ==> a1 == a2
    ensures o1.Code() != p1.Code() && o1.Code() != a1.Code() && p1.Code() != a1.Code()
  {
  }

  /** The zero value of RootNodeType reads as ObjectRoot, and the two root kinds are different codes. */
  lemma RootCodes(k: RootNodeType)
    ensures k.Code() == 0 <==> k == ObjectRoot
    ensures EmptyRoot.kind.Code() == 0
  {
  }
}
