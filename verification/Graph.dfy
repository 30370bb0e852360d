/** The pipeline graph a customer edits, and the component catalog it is checked against. */
module Graph {
  import opened Wrappers
  import opened Json

  /** `name` and `config` may be absent; an absent config is a nil map. */
  datatype Node = Node(component: string, name: Option<string>, config: Option<map<string, Json>>)

  datatype Graph = Graph(signals: seq<string>, processors: seq<Node>, exporters: seq<Node>)

  datatype Kind = Processor | Exporter

  /** `conforms` is the outcome of the JSON Schema validation of a config. */
  datatype Component = Component(schema: map<string, Json>, conforms: map<string, Json> -> bool)

  type Catalog = map<(Kind, string), Component>
}
