/** `IngestionPipeline`: construction, `register`, `run_remote` and
    `run_local`. Every collaborator whose code lies outside the pipeline --
    the transformation steps, `reader.read()`, the `from_component`
    snapshot constructors and the platform's HTTP responses -- is a function
    supplied by the caller, so the pipeline's own logic is all that is fixed
    here. */
module Ingestion {
  import opened Wrappers
  import opened Schema
  import opened Configured
  import opened Runner

  /** A live transformation step. Only the two default steps are named; any
      other step is identified by a handle. */
  datatype TransformComponent =
    | SentenceAwareNodeParser
    | EmbedModel(model: string)
    | CustomTransform(handle: string)

  /** A reader configuration; `reader.isRemote` says whether the platform can
      perform the read itself. */
  datatype BaseReader = BaseReader(name: string, isRemote: bool)
  datatype ReaderConfig = ReaderConfig(reader: BaseReader, params: Component)

  /** A vector store used as the pipeline's data sink. */
  datatype VectorStore = VectorStore(name: string, params: Component)

  /** The behaviour of the components the pipeline is built from. */
  datatype Collaborators = Collaborators(
    call: (TransformComponent, seq<Node>) -> seq<Node>,
    acall: (TransformComponent, seq<Node>) -> seq<Node>,
    configureTransformation: TransformComponent -> ConfiguredTransformation,
    configureSink: VectorStore -> ConfiguredDataSink,
    configureReader: ReaderConfig -> ConfiguredDataSource,
    configureDocument: Node -> ConfiguredDataSource,
    read: ReaderConfig -> seq<Node>)

  /** The identifiers the platform answers with; `None` is a response whose
      `id` is missing. */
  datatype Platform = Platform(
    createProject: string -> Option<string>,
    upsertPipeline: (string, PipelineCreate) -> Option<string>,
    createExecution: string -> Option<string>)

  /** A request sent to the platform, in the order it is sent. */
  datatype ApiCall =
    | CreateProject(projectName: string)
    | UpsertPipeline(projectId: string, request: PipelineCreate)
    | CreateExecution(pipelineId: string)

  datatype Error =
    | MissingInput        // ValueError: neither documents nor a reader
    | MissingProjectId    // the project response has no id
    | MissingPipelineId   // the upsert response has no id
    | MissingExecutionId  // the execution response has no id

  datatype IngestionPipeline = IngestionPipeline(
    name: string,
    configuredTransformations: seq<ConfiguredTransformation>,
    transformations: seq<TransformComponent>,
    documents: Option<seq<Node>>,
    reader: Option<ReaderConfig>,
    vectorStore: Option<VectorStore>)

  /** What `register` leaves behind: the pipeline (possibly with adopted
      documents), the payload it built, the requests it sent and its result. */
  datatype RegisterOutcome = RegisterOutcome(
    pipeline: IngestionPipeline,
    request: PipelineCreate,
    calls: seq<ApiCall>,
    result: Result<string, Error>)

  datatype RemoteOutcome = RemoteOutcome(
    pipeline: IngestionPipeline,
    calls: seq<ApiCall>,
    result: Result<string, Error>)

  /** What `run_local` returns, and the batch handed to the vector store's
      `add` (`None` when there is no vector store, so `add` is not called). */
  datatype LocalOutcome = LocalOutcome(nodes: seq<Node>, sinkBatch: Option<seq<Node>>)

  // ---------------------------------------------------------------------
  // Construction
  // ---------------------------------------------------------------------

  /** Entry i of `configured` is the snapshot of transformation i. */
  ghost predicate Aligned(configured: seq<ConfiguredTransformation>, transformations: seq<TransformComponent>,
                          configure: TransformComponent -> ConfiguredTransformation)
  {
    && |configured| == |transformations|
    && forall i :: 0 <= i < |transformations| ==> configured[i] == configure(transformations[i])
  }

  /** The invariant every constructed pipeline satisfies. */
  ghost predicate Valid(p: IngestionPipeline, env: Collaborators) {
    && (p.documents.Some? || p.reader.Some?)
    && Aligned(p.configuredTransformations, p.transformations, env.configureTransformation)
  }

  /** `_get_default_transformations`: a sentence-aware splitter followed by
      the embedding model resolved from "default". */
  function DefaultTransformations(): seq<TransformComponent> {
    [SentenceAwareNodeParser, EmbedModel("default")]
  }

  /** `IngestionPipeline.__init__`. */
  method New(name: string, transformations: Option<seq<TransformComponent>>, reader: Option<ReaderConfig>,
             documents: Option<seq<Node>>, vectorStore: Option<VectorStore>, env: Collaborators)
    returns (r: Result<IngestionPipeline, Error>)
    ensures r.Failure? <==> documents.None? && reader.None?
    ensures r.Failure? ==> r.error == MissingInput
    ensures r.Success? ==> Valid(r.value, env)
    ensures r.Success? && transformations.Some? ==> r.value.transformations == transformations.value
    ensures r.Success? && transformations.None? ==> |r.value.transformations| == 2
    ensures r.Success? ==> && r.value.name == name && r.value.reader == reader
                           && r.value.documents == documents && r.value.vectorStore == vectorStore
  {
    if documents.None? && reader.None? {
      return Failure(MissingInput);
    }
    var steps := if transformations.Some? then transformations.value else DefaultTransformations();
    var configured: seq<ConfiguredTransformation> := [];
    for i := 0 to |steps|
      invariant |configured| == i
      invariant forall j :: 0 <= j < i ==> configured[j] == env.configureTransformation(steps[j])
    {
      configured := configured + [env.configureTransformation(steps[i])];
    }
    r := Success(IngestionPipeline(name, configured, steps, documents, reader, vectorStore));
  }

  // ---------------------------------------------------------------------
  // register
  // ---------------------------------------------------------------------

  /** The reader is present and the platform can read it itself. */
  predicate RemoteReader(reader: Option<ReaderConfig>) {
    reader.Some? && reader.value.reader.isRemote
  }

  /** `register` adopts a local read as the pipeline's documents: the reader
      is present but not remote, and the pipeline has no documents yet. */
  predicate AdoptsRead(p: IngestionPipeline) {
    p.reader.Some? && !p.reader.value.reader.isRemote && p.documents.None?
  }

  function DocumentsOrEmpty(documents: Option<seq<Node>>): seq<Node> {
    documents.GetOr([])
  }

  /** Reader handling of `register`. A non-remote reader is read. Its output
      becomes the documents when there are none; otherwise the existing
      documents are appended to the freshly read list, which is then dropped,
      so the stored documents stay as they were. */
  function ReadLocally(p: IngestionPipeline, env: Collaborators): IngestionPipeline {
    match p.reader
    case None => p
    case Some(rc) =>
      if rc.reader.isRemote then p
      else
        var read := env.read(rc);
        if p.documents.Some? then p
        else p.(documents := Some(read))
  }

  /** Zero or one sink payload, from the vector store. */
  function DataSinks(vectorStore: Option<VectorStore>, env: Collaborators): seq<DataSinkCreate> {
    match vectorStore
    case None => []
    case Some(vs) => [SinkCreate(env.configureSink(vs))]
  }

  /** One source payload per document, in collection order. */
  function DocumentSources(documents: seq<Node>, env: Collaborators): (sources: seq<DataSourceCreate>)
    ensures |sources| == |documents|
    ensures forall i :: 0 <= i < |documents| ==>
      sources[i] == DocumentSourceCreate(env.configureDocument(documents[i]), documents[i])
    decreases |documents|
  {
    if |documents| == 0 then []
    else [DocumentSourceCreate(env.configureDocument(documents[0]), documents[0])] + DocumentSources(documents[1..], env)
  }

  /** The source list of `register`, derived after the reader was handled. */
  function DataSources(p: IngestionPipeline, env: Collaborators): seq<DataSourceCreate> {
    var fromReader := if RemoteReader(p.reader) then [ReaderSourceCreate(env.configureReader(p.reader.value))] else [];
    fromReader + DocumentSources(DocumentsOrEmpty(p.documents), env)
  }

  /** `sources` holds one source for a remote reader, if there is one,
      followed by one source per document, in collection order. */
  ghost predicate SourcesFor(sources: seq<DataSourceCreate>, reader: Option<ReaderConfig>, documents: seq<Node>,
                             env: Collaborators)
  {
    var k := if RemoteReader(reader) then 1 else 0;
    && |sources| == k + |documents|
    && (RemoteReader(reader) ==> sources[0] == ReaderSourceCreate(env.configureReader(reader.value)))
    && forall i :: 0 <= i < |documents| ==>
         sources[k + i] == DocumentSourceCreate(env.configureDocument(documents[i]), documents[i])
  }

  /** The remote part of `register`: create the project, then upsert the
      pipeline into it, stopping at the first response without an id. */
  function Submit(projectName: string, request: PipelineCreate, platform: Platform): (seq<ApiCall>, Result<string, Error>) {
    match platform.createProject(projectName)
    case None => ([CreateProject(projectName)], Failure(MissingProjectId))
    case Some(projectId) =>
      var calls := [CreateProject(projectName), UpsertPipeline(projectId, request)];
      match platform.upsertPipeline(projectId, request)
      case None => (calls, Failure(MissingPipelineId))
      case Some(pipelineId) => (calls, Success(pipelineId))
  }

  /** `IngestionPipeline.register`. The payload and the reader side effect
      come first; the side effect stays even when a later request fails. */
  function Register(p: IngestionPipeline, projectName: string, env: Collaborators, platform: Platform): (out: RegisterOutcome)
    // reader side effect; nothing but the documents changes
    ensures out.pipeline == p.(documents := out.pipeline.documents)
    ensures AdoptsRead(p) ==> out.pipeline.documents == Some(env.read(p.reader.value))
    ensures !AdoptsRead(p) ==> out.pipeline.documents == p.documents
    // transformation items
    ensures out.request.name == p.name
    ensures |out.request.configuredTransformations| == |p.configuredTransformations|
    ensures forall i :: 0 <= i < |p.configuredTransformations| ==>
      ItemFor(out.request.configuredTransformations[i], p.configuredTransformations[i])
    // data sinks
    ensures |out.request.dataSinks| == (if p.vectorStore.Some? then 1 else 0)
    ensures p.vectorStore.Some? ==> out.request.dataSinks[0] == SinkCreate(env.configureSink(p.vectorStore.value))
    // data sources
    ensures SourcesFor(out.request.dataSources, p.reader, DocumentsOrEmpty(out.pipeline.documents), env)
    // remote requests
    ensures platform.createProject(projectName).None? ==>
      out.calls == [CreateProject(projectName)] && out.result == Failure(MissingProjectId)
    ensures platform.createProject(projectName).Some? ==>
      var projectId := platform.createProject(projectName).value;
      && out.calls == [CreateProject(projectName), UpsertPipeline(projectId, out.request)]
      && (platform.upsertPipeline(projectId, out.request).None? ==> out.result == Failure(MissingPipelineId))
      && (platform.upsertPipeline(projectId, out.request).Some? ==>
            out.result == Success(platform.upsertPipeline(projectId, out.request).value))
  {
    var q := ReadLocally(p, env);
    var request := PipelineCreate(p.name, TransformationItems(p.configuredTransformations),
                                  DataSinks(p.vectorStore, env), DataSources(q, env));
    var (calls, result) := Submit(projectName, request, platform);
    RegisterOutcome(q, request, calls, result)
  }

  // ---------------------------------------------------------------------
  // run_remote
  // ---------------------------------------------------------------------

  /** `IngestionPipeline.run_remote`: register, then request an execution of
      the registered pipeline. */
  function RunRemote(p: IngestionPipeline, projectName: string, env: Collaborators, platform: Platform): (out: RemoteOutcome)
    // the pipeline is left as registration left it
    ensures out.pipeline == Register(p, projectName, env, platform).pipeline
    // registration's requests come first, and at most one more follows
    ensures var reg := Register(p, projectName, env, platform);
      reg.calls <= out.calls && |out.calls| <= |reg.calls| + 1
    // an execution is requested iff registration succeeded, for its pipeline id
    ensures var reg := Register(p, projectName, env, platform);
      (exists c :: c in out.calls && c.CreateExecution?) <==> reg.result.Success?
    ensures var reg := Register(p, projectName, env, platform);
      forall c :: c in out.calls && c.CreateExecution? ==> c == CreateExecution(reg.result.value)
    // failure and result
    ensures var reg := Register(p, projectName, env, platform);
      out.result.Failure? <==> reg.result.Failure? || platform.createExecution(reg.result.value).None?
    ensures var reg := Register(p, projectName, env, platform);
      reg.result.Failure? ==> out.result == reg.result
    ensures var reg := Register(p, projectName, env, platform);
      reg.result.Success? && out.result.Failure? ==> out.result.error == MissingExecutionId
    ensures var reg := Register(p, projectName, env, platform);
      out.result.Success? ==> out.result.value == platform.createExecution(reg.result.value).value
  {
    var reg := Register(p, projectName, env, platform);
    match reg.result
    case Failure(e) => RemoteOutcome(reg.pipeline, reg.calls, Failure(e))
    case Success(pipelineId) =>
      var calls := reg.calls + [CreateExecution(pipelineId)];
      assert calls[|calls| - 1] in calls;
      match platform.createExecution(pipelineId)
      case None => RemoteOutcome(reg.pipeline, calls, Failure(MissingExecutionId))
      case Some(executionId) => RemoteOutcome(reg.pipeline, calls, Success(executionId))
  }

  // ---------------------------------------------------------------------
  // run_local
  // ---------------------------------------------------------------------

  /** The nodes that carry an embedding, in their original order. */
  function Embedded(nodes: seq<Node>): (r: seq<Node>)
    ensures |r| <= |nodes|
    ensures forall n :: n in r <==> n in nodes && IsEmbedded(n)
    decreases |nodes|
  {
    if |nodes| == 0 then []
    else if IsEmbedded(nodes[0]) then [nodes[0]] + Embedded(nodes[1..])
    else Embedded(nodes[1..])
  }

  /** The input batch of `run_local`: the documents, then what the reader
      reads, either part empty when absent. */
  function InputNodes(p: IngestionPipeline, env: Collaborators): seq<Node> {
    DocumentsOrEmpty(p.documents) + (if p.reader.Some? then env.read(p.reader.value) else [])
  }

  /** `IngestionPipeline.run_local`. The pipeline is a value and is not
      returned, so its documents are untouched by construction. */
  method RunLocal(p: IngestionPipeline, env: Collaborators) returns (out: LocalOutcome)
    ensures var batch := InputNodes(p, env);
      && batch[..|DocumentsOrEmpty(p.documents)|] == DocumentsOrEmpty(p.documents)
      && (p.reader.Some? ==> batch[|DocumentsOrEmpty(p.documents)|..] == env.read(p.reader.value))
      && (p.reader.None? ==> batch == DocumentsOrEmpty(p.documents))
      && out.nodes == Fold(batch, p.transformations, env.call)
    ensures p.vectorStore.None? ==> out.sinkBatch.None?
    ensures p.vectorStore.Some? ==> out.sinkBatch == Some(Embedded(out.nodes))
  {
    var nodes := RunTransformations(InputNodes(p, env), p.transformations, env.call, true);
    var sinkBatch := if p.vectorStore.Some? then Some(Embedded(nodes)) else None;
    out := LocalOutcome(nodes, sinkBatch);
  }
}
