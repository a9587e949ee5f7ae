/** The data that flows through an ingestion pipeline: nodes (documents are
    nodes too) and the JSON-like parameter maps that describe components. */
module Schema {
  import opened Wrappers

  /** A JSON value, as held by a serialised component's parameter map. */
  datatype Json =
    | JNull
    | JBool(b: bool)
    | JNumber(n: int)
    | JString(s: string)
    | JArray(items: seq<Json>)
    | JObject(fields: map<string, Json>)

  /** A serialised parameter map of a component. */
  type Component = map<string, Json>

  /** A node (`BaseNode`); a `Document` is a node as well. The embedding is
      absent until an embedding step has computed it; its floats are
      abstracted to integers, since only its presence is observed here. */
  datatype Node = Node(id: string, text: string, embedding: Option<seq<int>>)

  /** True when the node carries an embedding, the condition under which a
      node is written to the vector store. */
  predicate IsEmbedded(n: Node) {
    n.embedding.Some?
  }
}
