/** The `PreviewGenerator` class: the state one batch leaves behind, and the rendering it triggers. */
module Generator {
  import opened PreviewTypes
  import opened Seqs
  import opened Dispatch
  import opened Batch
  import opened Render

  /** JavaScript truthiness of the `container` argument. */
  predicate ContainerIsTruthy(container: Option<string>) {
    container.Some? && container.value != ""
  }

  class PreviewGenerator {
    const config: Config
    /** `this._files`: the files of the last batch that got past its early returns. */
    var files: Option<seq<File>>
    /** `this._result`: what that batch collected. */
    var result: Option<seq<Entry>>
    /** `this.duration`: the elapsed time of the last batch that finished its tasks. */
    var duration: Option<real>

    /** Lines 2-6, without the input wiring: the fields start undefined. */
    constructor (config: Config)
      ensures this.config == config
      ensures files == None && result == None && duration == None
    {
      this.config := config;
      files := None;
      result := None;
      duration := None;
    }

    /**
     * Lines 55-70. The nodes come from `this._result`; the `result` argument is only logged
     * by the source, so nothing here depends on it.
     */
    method RenderPreviews(container: string, result: seq<Entry>, doc: Document) returns (settled: Settled)
      modifies doc
      ensures Effect(settled, doc.targets) == RenderEffect(old(doc.targets), container, this.result, RendererOf(config))
    {
      var render := RendererOf(config);
      if this.result.None? {
        // `this._result.forEach` on undefined
        return Rejected(TypeError);
      }
      var fragment := BuildFragment(this.result.value, render);
      if fragment.Err? {
        return Rejected(fragment.error);
      }
      if container in doc.targets {
        doc.targets := doc.targets[container := fragment.value];
      }
      settled := Fulfilled;
    }

    /**
     * Lines 38-47, starting from the `[]` of line 36: the parallel branch assigns the mapped
     * outcomes at once, the sequential branch pushes one awaited outcome per file and stops
     * at the first rejection. The failure, if any, is the reason the batch rejects with.
     */
    method RunTasks(list: seq<File>, browser: Browser) returns (failure: Option<Reason>)
      requires result == Some([])
      modifies this`result
      ensures var run := RunBatch(config, browser, list);
        && result == Some(run.entries)
        && (failure.None? <==> run.Completed?)
        && (failure.Some? ==> failure.value == run.reason)
    {
      ghost var outs := Outcomes(config, browser, list);
      if RunsInParallel(config.mode) {
        var all := PromiseAll(Outcomes(config, browser, list));
        if all.Err? {
          return Some(all.error);
        }
        result := Some(all.value);
        return None;
      }
      var i := 0;
      while i < |list|
        invariant 0 <= i <= |list|
        invariant forall j :: 0 <= j < i ==> !outs[j].Rejects?
        invariant result == Some(AwaitEach(outs[..i]))
      {
        var outcome := RunTask(config, browser, list[i]);
        if outcome.Rejects? {
          assert FirstRejected(outs) == i;
          return Some(outcome.reason);
        }
        assert outs[..i + 1][..i] == outs[..i];
        result := Some(result.value + [Awaited(outcome)]);
        i := i + 1;
      }
      assert outs[..i] == outs;
      failure := None;
    }

    /**
     * Lines 21-53. `elapsed` stands for `performance.now() - startedAt`, and `browser` for the
     * media elements the tasks create. An early return or the `TypeError` of `Array.from(null)`
     * changes nothing. Otherwise `_files` holds the admitted files and `_result` what the run
     * left; only a run whose tasks all settle records the duration and, for a truthy
     * container, renders.
     */
    method GeneratePreview(arg: FilesArg, container: Option<string>, browser: Browser, elapsed: real, doc: Document)
      returns (settled: Settled)
      modifies this, doc
      ensures match Admit(config, arg)
        case Throws(reason) =>
          && settled == Rejected(reason)
          && files == old(files) && result == old(result) && duration == old(duration)
          && doc.targets == old(doc.targets)
        case NothingToDo =>
          && settled == Fulfilled
          && files == old(files) && result == old(result) && duration == old(duration)
          && doc.targets == old(doc.targets)
        case Proceed(admitted) =>
          && files == Some(admitted)
          && match RunBatch(config, browser, admitted)
             case Aborted(entries, reason) =>
               && result == Some(entries)
               && settled == Rejected(reason)
               && duration == old(duration)
               && doc.targets == old(doc.targets)
             case Completed(entries) =>
               && result == Some(entries)
               && duration == Some(elapsed)
               && if ContainerIsTruthy(container) then
                    Effect(settled, doc.targets) == RenderEffect(old(doc.targets), container.value, result, RendererOf(config))
                  else
                    settled == Fulfilled && doc.targets == old(doc.targets)
    {
      var normalized := Normalize(arg);
      if normalized.Err? {
        return Rejected(normalized.error);
      }
      var list := normalized.value;
      if |list| == 0 {
        return Fulfilled;
      }
      if config.filter.Some? {
        list := Filter(list, config.filter.value);
        if |list| == 0 {
          return Fulfilled;
        }
      }

      files := Some(list);
      result := Some([]);
      var failure := RunTasks(list, browser);
      if failure.Some? {
        return Rejected(failure.value);
      }

      duration := Some(elapsed);
      if ContainerIsTruthy(container) {
        settled := RenderPreviews(container.value, result.value, doc);
      } else {
        settled := Fulfilled;
      }
    }
  }

  /**
   * A completed batch with a file of unsupported type holds an `undefined` slot, so the
   * rendering that follows throws a `TypeError` whatever the render function.
   */
  lemma UnsupportedFileRejectsRendering(config: Config, browser: Browser, files: seq<File>, i: nat,
                                        render: (Node, File) -> Node)
    requires i < |files| && RunBatch(config, browser, files).Completed?
    requires LoadGenerator(config, files[i]).NoTask?
    ensures Fragment(RunBatch(config, browser, files).entries, render) == Err(TypeError)
  {
  }

  /**
   * A completed batch of images and videos renders one node per admitted file, in the
   * order of the files, each built from that file's own image.
   */
  lemma CompletedBatchRendersEveryFile(config: Config, browser: Browser, files: seq<File>,
                                       render: (Node, File) -> Node)
    requires RunBatch(config, browser, files).Completed?
    requires forall i :: 0 <= i < |files| ==> !LoadGenerator(config, files[i]).NoTask?
    ensures var entries, r := RunBatch(config, browser, files).entries, Fragment(RunBatch(config, browser, files).entries, render);
      && r.Ok?
      && |r.value| == |files|
      && forall i :: 0 <= i < |files| ==>
           entries[i].file == files[i] && r.value[i] == render(entries[i].image.value, files[i])
  {
    var entries := RunBatch(config, browser, files).entries;
    assert forall i :: 0 <= i < |entries| ==> HasImage(entries[i]);
    FilterKeepsAll(entries, HasImage);
    FragmentSelectsImages(entries, render);
  }
}
