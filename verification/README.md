# Ingestion pipeline of llama_index, modelled in Dafny

This project models the core of `llama_index/ingestion/pipeline.py`:

- the transformation runners `run_transformations` and `arun_transformations`, a left fold of an ordered list of transformation steps over a batch of nodes;
- `IngestionPipeline`: construction, `register` (which builds the `PipelineCreate` payload of transformation items, data sinks and data sources, then creates the project and upserts the pipeline on the platform), `run_remote` (register, then request an execution) and `run_local` (concatenate the inputs, run the steps, hand the embedded nodes to the vector store).

Everything is a value. Every collaborator whose code is outside this file is a function supplied by the caller, held in a `Collaborators` record: each step's `__call__` and `acall`, the `from_component` snapshot constructors, and `reader.read()`. The platform's answers are a `Platform` record of functions that return `Option<string>` ids, with `None` standing for a response whose `id` is missing. `register` returns an outcome record holding the pipeline as it left it, the `PipelineCreate` payload it built, the ordered log of platform requests it sent, and a `Result`. `run_remote` returns the pipeline, the request log and a `Result`; its payload appears only inside the log's `UpsertPipeline` entry, when that request was sent.

Files:

- `wrappers.dfy`: `Option` and `Result`.
- `schema.dfy`: nodes (documents are nodes), JSON parameter maps, and the embedding-presence test.
- `configured.dfy`: configured snapshots, the client payload shapes, and the stripping of the `callback_manager` key.
- `runner.dfy`: the fold and both runners.
- `pipeline.dfy`: the pipeline record and its operations.
- `pipeline_properties.dfy`: properties that span several calls.

Reader handling in `register` (`pipeline.py:207-212`) is modelled as written. A non-remote reader's output is adopted only when `documents` is `None`. Otherwise line 210, `documents += self.documents`, extends the local read list, and that list is then dropped. The stored collection is therefore unchanged, and the read documents are not registered. Line 210 looks as if it was meant to merge the read documents into the collection, but the model does not do that. `IngestionProperties.RegisterSettles` and `IngestionProperties.ReadOutputDiscarded` state the behaviour as written.

## Model

| member | source | states |
|---|---|---|
| `Runner.RunTransformations` | llama_index/ingestion/pipeline.py:29-50 | returns the left fold of the steps over the nodes, whatever `in_place` is; the last step is applied to the complete output of the steps before it; no steps means the input comes back unchanged |
| `Runner.ARunTransformations` | llama_index/ingestion/pipeline.py:53-74 | the asynchronous runner returns the left fold of the steps' `acall`, whatever `in_place` is; no steps means the input comes back unchanged |
| `Runner.FoldAppend` | llama_index/ingestion/pipeline.py:47-48 | running the steps `a + b` is running `b` over the result of running `a`: each step fully consumes the previous step's output |
| `Runner.FoldLast` | llama_index/ingestion/pipeline.py:47-48 | the last step of the list runs last, on the complete output of all earlier steps |
| `Runner.SyncAsyncAgree` | llama_index/ingestion/pipeline.py:53-74 | when each step's `acall` agrees with its `__call__`, the asynchronous and synchronous runners return the same batch |
| `Ingestion.New` | llama_index/ingestion/pipeline.py:97-126 | fails with `MissingInput` iff both documents and reader are absent, so an empty document list is accepted; on success the configured snapshots are index-aligned with the transformations; the default list of lines 150-154 has exactly two steps; name, reader, documents and vector store are kept as given |
| `Configured.ToItem` | llama_index/ingestion/pipeline.py:163-175 | the item is named by the snapshot's type, has no `callback_manager` key, and keeps every other key of the snapshot's parameters with its value |
| `Configured.TransformationItems` | llama_index/ingestion/pipeline.py:161-175 | one item per configured transformation, in the same order, each stripped as `ToItem` states |
| `Ingestion.DocumentSources` | llama_index/ingestion/pipeline.py:214-226 | one source per document, in collection order; each is named and typed by the document's snapshot and carries the document itself as its component |
| `Ingestion.Register` | llama_index/ingestion/pipeline.py:156-250 | only the documents of the pipeline may change: they become the read output iff the reader is local and documents were absent, else they stay; this change is kept even when a later request fails. The payload has one item per transformation in order, one sink iff a vector store is present, and sources = (remote reader source) ++ one per document. A missing project id fails after one request; otherwise the upsert is sent, a missing pipeline id fails, and success returns the pipeline id |
| `Ingestion.RunRemote` | llama_index/ingestion/pipeline.py:252-272 | the pipeline is left as registration left it; registration's requests come first and at most one more follows; an execution is requested iff registration succeeded, and only for its pipeline id; the run fails iff registration failed (its error propagates) or the execution id is missing (`MissingExecutionId`); on success it returns the execution id |
| `Ingestion.Embedded` | llama_index/ingestion/pipeline.py:291-292 | a node is in the sink batch iff it is a result node with an embedding; the batch is no longer than the result |
| `Ingestion.RunLocal` | llama_index/ingestion/pipeline.py:274-294 | the input batch is the documents followed by the reader's output, with absent parts empty; the returned nodes are the fold of the steps over it; the vector store receives exactly the embedded result nodes, and `add` is not called without a vector store |
| `IngestionProperties.RegisterPreservesValid` | llama_index/ingestion/pipeline.py:191-212 | `register` keeps the construction invariant: input present, snapshots aligned with transformations |
| `IngestionProperties.RegisterSettles` | llama_index/ingestion/pipeline.py:207-212 | a second `register` leaves the pipeline as the first left it and builds the same payload; the document collection does not grow |
| `IngestionProperties.ReadOutputDiscarded` | llama_index/ingestion/pipeline.py:207-226 | with documents present and a local reader, the pipeline is unchanged and the sources are exactly those of the existing documents |
| `IngestionProperties.RegisterFailsIff` | llama_index/ingestion/pipeline.py:228-250 | `register` fails iff the project or the pipeline response lacks an id; the upsert is sent iff a project id came back |
| `IngestionProperties.RunRemoteStopsAtMissingId` | llama_index/ingestion/pipeline.py:228-261 | a missing project id ends `run_remote` after the project request with `MissingProjectId`; a missing pipeline id ends it after the upsert with `MissingPipelineId`, and no execution is requested |
| `IngestionProperties.EmbeddedAppend` | llama_index/ingestion/pipeline.py:291-292 | filtering for embedded nodes distributes over concatenation, so the sink batch keeps the result's order |
| `IngestionProperties.EmbeddedExtremes` | llama_index/ingestion/pipeline.py:291-292 | if every result node is embedded the sink gets them all; if none is, it gets an empty batch |

## Left out

- `base_url` and `BASE_URL`: the platform client is abstracted to its responses, so the URL it talks to plays no part. `register` and `run_remote` use the global constant rather than the pipeline's field, and that is not observable here.
- The `verbose` flag of `register` and the `print` of the playground and execution URLs: output only, with no effect on results.
- The keyword options `show_progress` and `**kwargs`, which the runners forward verbatim to every step. A step's dependence on them is folded into the step function the caller supplies.
- `from_service_context`: it depends on `ServiceContext`, whose code is not part of this model.
- The concrete transformations (`SentenceAwareNodeParser`, the resolved embedding model) and the `from_component` constructors of `ConfiguredTransformation`, `ConfiguredDataSink` and `ConfiguredDataSource`. They appear only as named values or caller-supplied functions, because their code is not part of this model.
- The HTTP transport of `PlatformApi` and its transport errors. Only a missing `id` in a response is modelled as a failure.
- Exceptions raised by a step or by `reader.read()`. Steps and reads are total functions here, so a run that aborts partway is not modelled.
- `reader.read()` is a function of the reader configuration, so it returns the same documents each time it is called. Reading has no side effect in the model. In `register` with documents already present, the read result is dropped, as in the source.
- Aliasing and in-place mutation: nodes mutated by steps, the outer-list copy of `in_place=False`, and whether popping `callback_manager` from an item's component also changes the pipeline's stored snapshot. In a value model none of these is observable, so the `in_place` copy is the identity.
- Asynchronous suspension: `acall` is a step function of its own, and only the order of the steps is modelled.
- Python `assert` statements disappear under `python -O`. The model treats the three id checks as always active.
- Enum lookups by name (`ConfigurableTransformationNames[...]` and its sink and source counterparts) are the identity on names, so a missing name cannot occur.
- Embedding values are integer sequences standing for floats. Only their presence matters.
- Python default arguments (`name="pipeline"`, `project_name="project"`, `in_place=True`, and `None` for the optional inputs): every operation here takes all of its arguments explicitly.
- Pydantic field validation of the pipeline and of the payload records.
