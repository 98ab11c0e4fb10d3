/** The optional value used for the client's nullable fields and for "zero or one event". */
module Wrappers {

  datatype Option<+T> = None | Some(value: T)

  /** The list holding the value, if there is one. */
  function OptionToSeq<T>(o: Option<T>): (s: seq<T>)
    ensures |s| <= 1
    ensures o.Some? <==> |s| == 1
    ensures o.Some? ==> s[0] == o.value
  {
    match o
    case None => []
    case Some(v) => [v]
  }

  /** JavaScript truthiness of an optional string field: present and non-empty. */
  predicate Truthy(t: Option<string>) {
    t.Some? && t.value != ""
  }
}
