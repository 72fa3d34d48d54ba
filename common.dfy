/** Small shared vocabulary: optional values, and JavaScript truthiness of an optional string. */
module Common {

  /** An optional value; `None` stands for `undefined` and `null` alike. */
  datatype Option<+T> = None | Some(value: T)

  /** JavaScript truthiness of a `string | undefined`: the empty string is falsy too. */
  predicate Bound(o: Option<string>)
  {
    o.Some? && o.value != ""
  }
}
