/**
 * What the extraction stages call but do not define: the local language
 * model (a subprocess), Python's JSON decoder, and the two question helpers
 * of the query handler. Each is a function parameter; none is interpreted.
 */
module Services {
  import opened Wrappers

  /** A JSON value as the item loop sees it: a string, or any other value with its Python truthiness. */
  datatype Json = JStr(s: string) | JOther(truthy: bool)

  /** An element of the decoded list: an object, or a value of any other kind. */
  datatype Item = Obj(fields: map<string, Json>) | NotObj

  datatype Services = Services(
    /**
     * `_call_llm_for_extraction`: the first line of the model's reply to a
     * prompt, "" when the subprocess fails.
     */
    generate: string -> string,
    /** `json.loads` applied to the bracketed span; None when it raises or yields no list. */
    decode: string -> Option<seq<Item>>,
    /** `handler.get_relation_type_from_question`; "" when no relation is asked for. */
    relationOf: string -> string,
    /** `handler.extract_head_entity`; "" when no head is found. */
    headOf: string -> string)
}
