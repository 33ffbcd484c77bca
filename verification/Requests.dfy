/** GraphQL requests as a guest submits them, and the JSON body that is stored and sent. */
module Requests {
  import opened Outcome
  import opened OrderedMap
  import opened Printer

  datatype Json =
    | JNull
    | JBool(on: bool)
    | JNumber(text: string, integer: bool)
    | JString(text: string)
    | JArray(items: seq<Json>)
    | JObject(members: seq<Entry<Json>>)

  datatype Request = Request(query: string, operationName: Option<string>, variables: seq<Entry<Json>>)

  /** Decoded JSON objects are ordered maps. */
  ghost predicate JsonOk(j: Json)
    decreases j
  {
    match j
    case JArray(items) => forall i :: 0 <= i < |items| ==> JsonOk(items[i])
    case JObject(members) => Sorted(members) && forall i :: 0 <= i < |members| ==> JsonOk(members[i].value)
    case _ => true
  }

  ghost predicate RequestOk(req: Request) {
    forall i :: 0 <= i < |req.variables| ==> JsonOk(req.variables[i].value)
  }

  /** What a guest fills in: the variables may be null. */
  datatype Envelope = Envelope(query: string, operationName: Option<string>, variables: Option<seq<Entry<Json>>>)

  function Decoded(e: Envelope): Request {
    Request(e.query, e.operationName, if e.variables.Some? then e.variables.value else [])
  }

  function JsonText(j: Json, tail: string): string
    decreases j
  {
    match j
    case JNull => "null" + tail
    case JBool(on) => (if on then "true" else "false") + tail
    case JNumber(text, _) => text + tail
    case JString(text) => Quoted(text, tail)
    case JArray(items) => "[" + JsonItems(items, "]" + tail)
    case JObject(members) => "{" + JsonMembers(members, "}" + tail)
  }

  function JsonItems(items: seq<Json>, tail: string): string
    decreases items
  {
    if items == [] then tail
    else JsonText(items[0], if |items| == 1 then tail else "," + JsonItems(items[1..], tail))
  }

  function JsonMembers(members: seq<Entry<Json>>, tail: string): string
    decreases members
  {
    if members == [] then tail
    else
      var rest := if |members| == 1 then tail else "," + JsonMembers(members[1..], tail);
      Quoted(members[0].key, ":" + JsonText(members[0].value, rest))
  }

  /** The body: the three members in key order. */
  function BodyText(e: Envelope): string {
    var variables := JsonText(if e.variables.Some? then JObject(e.variables.value) else JNull, "}");
    var query := ",\"query\":" + Quoted(e.query, ",\"variables\":" + variables);
    "{\"operationName\":" + JsonText(if e.operationName.Some? then JString(e.operationName.value) else JNull, query)
  }
}
