/** The values the client puts into request bodies and log contexts, before
    `json_encode` turns a body into bytes. */
module Json {
  import PhpArray

  datatype Value =
    | Str(s: string)
    | Int(n: int)
    | Strs(ss: seq<string>)   // a PHP list of strings, e.g. SMS destinations
    | Ints(ns: seq<int>)      // a PHP list of integers, e.g. list ids

  /** A request body or log context: a PHP array with string keys. */
  type Payload = PhpArray.Array<Value>
}
