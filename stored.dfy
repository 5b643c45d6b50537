/**
 * The shape of a snapshot read back from the realtime database, as the
 * group pages walk it with nested `for…in` loops: top-level keys in order,
 * each holding either an object of ordered children or some other value.
 * A child object is described by the fields the pages read; a field the
 * child does not have is `None`.
 */
module Stored {
  import opened Common

  /** A child object: the fields `name`, `amount`, `paidBy` and `members`. */
  datatype Node = Node(name: Option<string>, amount: Option<real>, paidBy: Option<string>, members: Option<real>)

  /** The value under a top-level key. */
  datatype Level = Scalar | Object(children: seq<(string, Node)>)

  /** The whole snapshot: `for (const key in data)` visits these in order. */
  type Tree = seq<(string, Level)>

  /** JavaScript truthiness of an optional string field. */
  predicate TruthyText(s: Option<string>) { s.Some? && s.value != "" }

  /** JavaScript truthiness of an optional number field. */
  predicate TruthyNumber(x: Option<real>) { x.Some? && x.value != 0.0 }

  /**
   * How a read of the snapshot ends: no user token (no request is made),
   * a response that is not ok, or the data (`null` is `None`).
   */
  datatype Fetch = NoToken | Failed | Loaded(data: Option<Tree>)

  /**
   * How a write ends: no user token (no request is made), a response that
   * is not ok, or success.
   */
  datatype Write = Unauthorised | Refused | Done
}
