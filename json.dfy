/** The JSON values that the service passes through without looking inside them. */
module Json {

  /**
   * A decoded JSON value. Lists and objects are not looked into, so they are
   * one case: two different list or object ids are not told apart.
   */
  datatype Value =
    | Null
    | Bool(b: bool)
    | Number(n: real)
    | Str(s: string)
    | Structured
}
