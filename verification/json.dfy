/** The in-memory document tree that `json.load` produces for package.json and
    contributions.json. Objects keep their members in stored iteration order. */
module Json {

  datatype Json =
    | JObject(members: seq<Member>)
    | JArray(items: seq<Json>)
    | JString(str: string)
    | JNumber(literal: string)
    | JBool(b: bool)
    | JNull

  /** One key/value pair of an object. */
  datatype Member = Member(key: string, value: Json)
}
