/** Value types shared by the analyzers, the pattern store and the HTTP handlers. */
module Types {

  /** Python's `None` next to a present value. */
  datatype Option<+T> = None | Some(value: T)

  /** One entry of a report's issue list: the `Issue` record of the HTTP layer,
      also what the language model returns under "issues". `kind` is the
      record's `type` field (a reserved word in Dafny). */
  datatype Issue = Issue(kind: string, message: string, line: Option<int>, fix: Option<string>, severity: string)

  /** Python truthiness of an optional string: present and non-empty. */
  predicate Truthy(s: Option<string>) {
    s.Some? && s.value != ""
  }
}
