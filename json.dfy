/** JSON values as they appear on the wire, in both directions: the request
    body the client marshals and the records it decodes from the response
    stream. Numbers are kept as the decimal they are written as; nothing in
    the model computes with them. */
module Json {

  /** Presence or absence of a value (a Go nil interface, a missing map key). */
  datatype Option<T> = None | Some(value: T)

  datatype Value =
    | Null
    | Bool(b: bool)
    | Number(n: real)
    | Str(s: string)
    | Array(items: seq<Value>)
    | Object(members: seq<Member>)

  /** One `"key": value` pair of a JSON object, in the order it is written. */
  datatype Member = Member(key: string, value: Value)

  /** The keys of an object, in order. */
  function Keys(ms: seq<Member>): seq<string>
  {
    seq(|ms|, i requires 0 <= i < |ms| => ms[i].key)
  }
}
