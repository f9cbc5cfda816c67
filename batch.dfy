/** `generatePreview` as a function of its inputs: admission, the two run modes, and what `_result` ends up holding. */
module Batch {
  import opened PreviewTypes
  import opened Seqs
  import opened Dispatch

  /** The `files` argument: omitted (defaults to `[]`), `null`, an array, or an array-like `FileList`. */
  datatype FilesArg = Omitted | Null | FileArray(items: seq<File>) | FileList(items: seq<File>)

  /** The default parameter, then `Array.from` for any object that is not an array (which throws on `null`). */
  function Normalize(arg: FilesArg): (r: Result<seq<File>, Reason>)
    ensures r.Err? <==> arg.Null?
    ensures r.Err? ==> r.error == TypeError
    ensures arg.Omitted? ==> r == Ok([])
    ensures arg.FileArray? || arg.FileList? ==> r == Ok(arg.items)
  {
    match arg
    case Omitted => Ok([])
    case Null => Err(TypeError)
    case FileArray(items) => Ok(items)
    case FileList(items) => Ok(items)
  }

  /** How a batch gets past its early returns: it throws, it returns doing nothing, or it runs on these files. */
  datatype Admission = Throws(reason: Reason) | NothingToDo | Proceed(files: seq<File>)

  /** Normalise the list, stop when it is empty, apply the filter if it is a function, stop when nothing is left. */
  function Admit(config: Config, arg: FilesArg): (a: Admission)
    ensures a.Throws? <==> arg.Null?
    ensures a.Throws? ==> a.reason == TypeError
    ensures a.Proceed? ==> |a.files| > 0 && (arg.FileArray? || arg.FileList?)
    ensures a.Proceed? && config.filter.None? ==> a.files == arg.items
    ensures a.Proceed? && config.filter.Some? ==> a.files == Filter(arg.items, config.filter.value)
  {
    match Normalize(arg)
    case Err(e) => Throws(e)
    case Ok(files) =>
      if |files| == 0 then NothingToDo
      else
        match config.filter
        case None => Proceed(files)
        case Some(keep) =>
          var kept := Filter(files, keep);
          if |kept| == 0 then NothingToDo else Proceed(kept)
  }

  /** A batch returns early, touching nothing, exactly when the list is missing or empty or the filter rejects every file. */
  lemma EarlyReturnIff(config: Config, arg: FilesArg)
    ensures Admit(config, arg).NothingToDo? <==>
      || arg.Omitted?
      || ((arg.FileArray? || arg.FileList?) &&
          (|| arg.items == []
           || (config.filter.Some? && forall i :: 0 <= i < |arg.items| ==> !config.filter.value(arg.items[i]))))
  {
    if (arg.FileArray? || arg.FileList?) && config.filter.Some? {
      FilterEmptyIff(arg.items, config.filter.value);
    }
  }

  /** Line 41: `!mode || mode === 'async'` picks the parallel branch; every other mode runs files one by one. */
  predicate RunsInParallel(mode: Option<string>) {
    mode.None? || mode.value == "" || mode.value == "async"
  }

  /** `files.map(file => this.loadGenerator(file))`, each task run to its outcome. */
  function Outcomes(config: Config, browser: Browser, files: seq<File>): (outs: seq<Outcome>)
    ensures |outs| == |files|
    ensures forall i :: 0 <= i < |files| ==> outs[i] == RunTask(config, browser, files[i])
  {
    seq(|files|, i requires 0 <= i < |files| => RunTask(config, browser, files[i]))
  }

  /** The position of the first outcome that rejects, or the length when none does. */
  function FirstRejected(outs: seq<Outcome>): (k: nat)
    ensures k <= |outs|
    ensures forall j :: 0 <= j < k ==> !outs[j].Rejects?
    ensures k < |outs| ==> outs[k].Rejects?
  {
    if outs == [] || outs[0].Rejects? then 0 else 1 + FirstRejected(outs[1..])
  }

  /** The awaited values of outcomes none of which rejects, in order. */
  function AwaitEach(outs: seq<Outcome>): (es: seq<Entry>)
    requires forall j :: 0 <= j < |outs| ==> !outs[j].Rejects?
    ensures |es| == |outs|
    ensures forall j :: 0 <= j < |outs| ==> es[j] == Awaited(outs[j])
  {
    if outs == [] then []
    else AwaitEach(outs[..|outs| - 1]) + [Awaited(outs[|outs| - 1])]
  }

  /**
   * `Promise.all`: the awaited values by index when no outcome rejects, and otherwise a
   * rejection with the reason of an outcome that rejected. A value that is not a promise
   * counts as already resolved.
   */
  function PromiseAll(outs: seq<Outcome>): (r: Result<seq<Entry>, Reason>)
    ensures r.Ok? <==> forall j :: 0 <= j < |outs| ==> !outs[j].Rejects?
    ensures r.Ok? ==> |r.value| == |outs| && forall j :: 0 <= j < |outs| ==> r.value[j] == Awaited(outs[j])
    ensures r.Err? ==> exists j :: 0 <= j < |outs| && outs[j] == Rejects(r.error)
  {
    if outs == [] then Ok([])
    else if outs[0].Rejects? then Err(outs[0].reason)
    else
      match PromiseAll(outs[1..])
      case Err(e) => Err(e)
      case Ok(rest) => Ok([Awaited(outs[0])] + rest)
  }

  /** What lines 36-47 leave in `_result`, and whether they got past the await. */
  datatype BatchRun = Completed(entries: seq<Entry>) | Aborted(entries: seq<Entry>, reason: Reason)

  /**
   * The run of one admitted batch. It completes exactly when no task rejects, and then
   * `_result[i]` is the awaited outcome of `files[i]` in either mode. When a task rejects,
   * the parallel mode leaves the `[]` of line 36, and the sequential mode leaves the
   * outcomes of the files before the first failing one and rejects with that file's error.
   */
  function RunBatch(config: Config, browser: Browser, files: seq<File>): (run: BatchRun)
    ensures run.Completed? <==> forall i :: 0 <= i < |files| ==> !RunTask(config, browser, files[i]).Rejects?
    ensures run.Completed? ==>
      && |run.entries| == |files|
      && forall i :: 0 <= i < |files| ==> run.entries[i] == Awaited(RunTask(config, browser, files[i]))
    ensures run.Aborted? ==> exists i :: 0 <= i < |files| && RunTask(config, browser, files[i]) == Rejects(run.reason)
    ensures run.Aborted? && RunsInParallel(config.mode) ==> run.entries == []
    ensures run.Aborted? && !RunsInParallel(config.mode) ==>
      && |run.entries| < |files|
      && RunTask(config, browser, files[|run.entries|]) == Rejects(run.reason)
      && forall i :: 0 <= i < |run.entries| ==>
           !RunTask(config, browser, files[i]).Rejects? && run.entries[i] == Awaited(RunTask(config, browser, files[i]))
  {
    var outs := Outcomes(config, browser, files);
    if RunsInParallel(config.mode) then
      match PromiseAll(outs)
      case Ok(entries) => Completed(entries)
      case Err(reason) => Aborted([], reason)
    else
      var k := FirstRejected(outs);
      if k == |outs| then Completed(AwaitEach(outs))
      else
        var done := outs[..k];
        assert forall i :: 0 <= i < k ==> done[i] == outs[i];
        Aborted(AwaitEach(done), outs[k].reason)
  }

  /** When no task fails, the parallel and the sequential mode leave the same `_result`. */
  lemma ModesAgreeWithoutFailure(config: Config, browser: Browser, files: seq<File>, other: Option<string>)
    requires forall i :: 0 <= i < |files| ==> !RunTask(config, browser, files[i]).Rejects?
    ensures RunBatch(config, browser, files) == RunBatch(config.(mode := other), browser, files)
  {
  }

  /** A file of unsupported type leaves `undefined` at its own position of a completed run. */
  lemma UnsupportedFileLeavesUndefined(config: Config, browser: Browser, files: seq<File>, i: nat)
    requires i < |files| && RunBatch(config, browser, files).Completed?
    requires LoadGenerator(config, files[i]).NoTask?
    ensures RunBatch(config, browser, files).entries[i] == Undefined
  {
  }

  /**
   * Two images and a file of another type: `_result` keeps three slots, the third `undefined`,
   * rather than dropping the unsupported file.
   */
  lemma UnsupportedFileKeepsItsSlot(config: Config, browser: Browser, jpeg: File, png: File, audio: File)
    requires jpeg.mime == "image/jpeg" && png.mime == "image/png" && audio.mime == "audio/mpeg"
    requires browser.loadImage(jpeg, config.base64).Loaded? && browser.loadImage(png, config.base64).Loaded?
    ensures RunBatch(config, browser, [jpeg, png, audio]) == Completed([
      Artifact(Some(Img(browser.loadImage(jpeg, config.base64).src)), jpeg),
      Artifact(Some(Img(browser.loadImage(png, config.base64).src)), png),
      Undefined])
  {
    assert StartsWith(jpeg.mime, "image");
    assert StartsWith(png.mime, "image");
    assert audio.mime[0] == 'a';
    assert !StartsWith(audio.mime, "image") && !StartsWith(audio.mime, "video");
    var files := [jpeg, png, audio];
    assert files[0] == jpeg && files[1] == png && files[2] == audio;
  }
}
