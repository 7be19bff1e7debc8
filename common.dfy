/** Values shared by every page: optional record columns and JavaScript truthiness. */
module Common {

  datatype Option<+T> = None | Some(value: T)

  /** A string column read from a record is truthy when it is present and not empty. */
  predicate Truthy(o: Option<string>) {
    o.Some? && o.value != ""
  }

  /** `column || ''`: the column when truthy, the empty string otherwise. */
  function OrEmpty(o: Option<string>): (r: string)
    ensures Truthy(o) ==> r == o.value
    ensures r == "" <==> !Truthy(o)
  {
    if o.Some? then o.value else ""
  }
}
