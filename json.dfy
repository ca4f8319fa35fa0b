/** The JSON values (RFC 8259) the client exchanges, seen abstractly. The encoding/json
    library itself is not modelled: where the client uses it, its behaviour is a function
    handed to the model (a `Parser` here, a marshaller or a decoder in the transport). */
module Encoding {
  import opened Errors

  /** A JSON value; strings hold their decoded text, numbers their literal. */
  datatype Json =
    | JNull
    | JBool(b: bool)
    | JNumber(literal: string)
    | JString(s: string)
    | JArray(items: seq<Json>)
    | JObject(members: seq<(string, Json)>)

  /** What encoding/json reads from a text: the JSON value it holds, or a syntax error. */
  type Parser = string -> Result<Json>

  /** A response record (Model, Dataset, Space, CollectionInfo, ...): only its JSON
      members, since the field lists carry no behaviour. */
  datatype Dto = Dto(fields: map<string, Json>)

  /** The zero value of a response record, as `var model Model` declares it. */
  const EmptyDto := Dto(map[])
}
