/**
 * The generic object-list AST that the HCL parser hands to the configuration
 * code. The parser itself is a foreign library; only the shape of its output
 * is modelled here.
 */
module Hcl {

  /** A value on the right of `key = ...` or inside a block. */
  datatype Value =
    | Literal(text: string)         // a string, number or bool token, by its text
    | Object(items: seq<Item>)      // a `{ ... }` block
    | ListOf(elements: seq<Value>)  // a `[ ... ]` list

  /** One `key = value` or `key { ... }` entry. */
  datatype Item = Item(key: string, value: Value)

  /** The root node of a parsed file: an object list, or some other node kind. */
  datatype Node = ObjectList(items: seq<Item>) | OtherNode

  /** What `hcl.Parse` gives back for a text. */
  datatype ParseOutcome = Parsed(root: Node) | SyntaxError(diagnostic: string)

  /** The values of the items carrying `key`, in document order. */
  function Matches(items: seq<Item>, key: string): (vs: seq<Value>)
    ensures |vs| <= |items|
    ensures vs == [] <==> forall i | 0 <= i < |items| :: items[i].key != key
  {
    if items == [] then []
    else (if items[0].key == key then [items[0].value] else []) + Matches(items[1..], key)
  }

  /** The set of keys of a sequence of items. */
  function KeySet(items: seq<Item>): set<string>
  {
    set i | 0 <= i < |items| :: items[i].key
  }
}
