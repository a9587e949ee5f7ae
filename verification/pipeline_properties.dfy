/** Properties that relate several calls of the pipeline's operations. */
module IngestionProperties {
  import opened Wrappers
  import opened Schema
  import opened Ingestion

  /** `register` keeps the construction invariant: documents are only ever
      adopted, never dropped, and the transformations are left alone. */
  lemma RegisterPreservesValid(p: IngestionPipeline, projectName: string, env: Collaborators, platform: Platform)
    requires Valid(p, env)
    ensures Valid(Register(p, projectName, env, platform).pipeline, env)
  {
  }

  /** A reader's output is adopted at most once: a second `register` leaves
      the pipeline as the first one left it and submits the same payload,
      so the document collection does not grow from call to call. */
  lemma RegisterSettles(p: IngestionPipeline, projectName: string, env: Collaborators, platform: Platform)
    ensures var first := Register(p, projectName, env, platform);
      var second := Register(first.pipeline, projectName, env, platform);
      && second.pipeline == first.pipeline
      && second.request == first.request
  {
  }

  /** With documents already present, what a non-remote reader reads is not
      registered: the pipeline is unchanged and the sources are exactly those
      of the existing documents. */
  lemma ReadOutputDiscarded(p: IngestionPipeline, projectName: string, env: Collaborators, platform: Platform)
    requires p.reader.Some? && !p.reader.value.reader.isRemote
    requires p.documents.Some?
    ensures var out := Register(p, projectName, env, platform);
      && out.pipeline == p
      && out.request.dataSources == DocumentSources(p.documents.value, env)
  {
  }

  /** `register` fails exactly when the project or the pipeline response
      lacks an id, and it sends the upsert only after a project id came
      back. */
  lemma RegisterFailsIff(p: IngestionPipeline, projectName: string, env: Collaborators, platform: Platform)
    ensures var out := Register(p, projectName, env, platform);
      && (out.result.Failure? <==>
            || platform.createProject(projectName).None?
            || platform.upsertPipeline(platform.createProject(projectName).value, out.request).None?)
      && ((exists c :: c in out.calls && c.UpsertPipeline?) <==> platform.createProject(projectName).Some?)
  {
    var out := Register(p, projectName, env, platform);
    if platform.createProject(projectName).Some? {
      assert out.calls[1] in out.calls;
    }
  }

  /** `run_remote` stops at the first platform response without an id: a
      missing project id sends nothing after project creation, and a
      missing pipeline id fails registration, so no execution is ever
      requested. */
  lemma RunRemoteStopsAtMissingId(p: IngestionPipeline, projectName: string, env: Collaborators, platform: Platform)
    ensures var out := RunRemote(p, projectName, env, platform);
      platform.createProject(projectName).None? ==>
        out.calls == [CreateProject(projectName)] && out.result == Failure(MissingProjectId)
    ensures var out := RunRemote(p, projectName, env, platform);
      var request := Register(p, projectName, env, platform).request;
      && platform.createProject(projectName).Some?
      && platform.upsertPipeline(platform.createProject(projectName).value, request).None?
      ==> && out.calls == [CreateProject(projectName), UpsertPipeline(platform.createProject(projectName).value, request)]
          && out.result == Failure(MissingPipelineId)
  {
  }

  /** Filtering a concatenation filters each part: the sink batch keeps the
      order of the result nodes. */
  lemma {:induction false} EmbeddedAppend(a: seq<Node>, b: seq<Node>)
    ensures Embedded(a + b) == Embedded(a) + Embedded(b)
    decreases |a|
  {
    if |a| == 0 {
      assert a + b == b;
    } else {
      assert (a + b)[0] == a[0];
      assert (a + b)[1..] == a[1..] + b;
      EmbeddedAppend(a[1..], b);
    }
  }

  /** When every result node is embedded the sink receives all of them, and
      when none is it receives an empty batch. */
  lemma {:induction false} EmbeddedExtremes(nodes: seq<Node>)
    ensures (forall i :: 0 <= i < |nodes| ==> IsEmbedded(nodes[i])) ==> Embedded(nodes) == nodes
    ensures (forall i :: 0 <= i < |nodes| ==> !IsEmbedded(nodes[i])) ==> Embedded(nodes) == []
    decreases |nodes|
  {
    if |nodes| > 0 {
      EmbeddedExtremes(nodes[1..]);
      assert forall i :: 0 <= i < |nodes[1..]| ==> nodes[1..][i] == nodes[i + 1];
    }
  }
}
