/** Optional values: a JSON field or a database lookup that may come back empty. */
module Wrappers {
  datatype Option<+T> = None | Some(value: T)

  /** JavaScript truthiness of an optional string: present and not "". Mongoose's
      `required: true` on a string path tests the same. */
  predicate Present(v: Option<string>)
  {
    v.Some? && v.value != ""
  }
}
