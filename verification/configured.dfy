/** Serialisable snapshots of live components (`ConfiguredTransformation`,
    `ConfiguredDataSink`, `ConfiguredDataSource`) and the payload shapes the
    platform client accepts (`ConfiguredTransformationItem`, `DataSinkCreate`,
    `DataSourceCreate`, `PipelineCreate`). The `from_component` constructors
    are not part of this model; they enter as functions supplied by the
    caller. An enum member is represented by its name, so looking a name up in
    `ConfigurableTransformationNames` (and its sink and source counterparts)
    gives back the same name. */
module Configured {
  import opened Schema

  /** The transient key removed from every transformation payload. */
  const CallbackManagerKey: string := "callback_manager"

  datatype ConfiguredTransformation = ConfiguredTransformation(transformationType: string, component: Component)

  datatype ConfiguredDataSink = ConfiguredDataSink(name: string, sinkType: string, component: Component)

  datatype ConfiguredDataSource = ConfiguredDataSource(name: string, sourceType: string, component: Component)

  datatype ConfiguredTransformationItem =
    ConfiguredTransformationItem(transformationName: string, component: Component, configurableTransformationType: string)

  datatype DataSinkCreate = DataSinkCreate(name: string, sinkType: string, component: Component)

  /** A data source's component is either the parameter map of a configured
      reader or, for a document source, the document itself. */
  datatype SourceComponent = ReaderComponent(params: Component) | DocumentComponent(document: Node)

  datatype DataSourceCreate = DataSourceCreate(name: string, sourceType: string, component: SourceComponent)

  datatype PipelineCreate = PipelineCreate(
    name: string,
    configuredTransformations: seq<ConfiguredTransformationItem>,
    dataSinks: seq<DataSinkCreate>,
    dataSources: seq<DataSourceCreate>)

  /** `item` is the payload of the snapshot `c`: both type fields name the
      snapshot's type, and its parameter map is the snapshot's without the
      callback manager. */
  ghost predicate ItemFor(item: ConfiguredTransformationItem, c: ConfiguredTransformation) {
    && item.transformationName == c.transformationType
    && item.configurableTransformationType == c.transformationType
    && CallbackManagerKey !in item.component
    && (forall k :: k in item.component ==> k in c.component && item.component[k] == c.component[k])
    && (forall k :: k in c.component && k != CallbackManagerKey ==> k in item.component)
  }

  /** One transformation item of `register`, with the callback manager popped
      from its parameter map (absent keys are ignored, as `pop(key, None)`). */
  function ToItem(c: ConfiguredTransformation): (item: ConfiguredTransformationItem)
    ensures ItemFor(item, c)
  {
    ConfiguredTransformationItem(c.transformationType, c.component - {CallbackManagerKey}, c.transformationType)
  }

  /** The transformation items of `register`: one per snapshot, in order. */
  function TransformationItems(cs: seq<ConfiguredTransformation>): (items: seq<ConfiguredTransformationItem>)
    ensures |items| == |cs|
    ensures forall i :: 0 <= i < |cs| ==> ItemFor(items[i], cs[i])
    decreases |cs|
  {
    if |cs| == 0 then [] else [ToItem(cs[0])] + TransformationItems(cs[1..])
  }

  /** The sink payload built from a configured vector store. */
  function SinkCreate(c: ConfiguredDataSink): DataSinkCreate
  {
    DataSinkCreate(c.name, c.sinkType, c.component)
  }

  /** The source payload for a remote reader: its snapshot's parameters. */
  function ReaderSourceCreate(c: ConfiguredDataSource): DataSourceCreate
  {
    DataSourceCreate(c.name, c.sourceType, ReaderComponent(c.component))
  }

  /** The source payload for a document: named and typed by the document's
      snapshot, but carrying the document itself as its component. */
  function DocumentSourceCreate(c: ConfiguredDataSource, document: Node): DataSourceCreate
  {
    DataSourceCreate(c.name, c.sourceType, DocumentComponent(document))
  }
}
