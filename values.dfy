/**
 * Dynamic Go values: what a handler passes as an `interface{}` (`data`,
 * `details`), what `c.Set` stores in a request's key store, and what a
 * `panic` is raised with. `Object` is a JSON object, as `gin.H` or a struct
 * with `json` tags encodes.
 */
module Values {

  datatype Any =
    | Nil
    | Bool(b: bool)
    | Int(n: int)
    | Str(s: string)
    | Object(fields: map<string, Any>)
    | Array(items: seq<Any>)
}
