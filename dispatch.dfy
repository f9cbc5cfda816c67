/** `loadGenerator`: which task a file gets, and what that task hands back. */
module Dispatch {
  import opened PreviewTypes

  /** `String.prototype.startsWith` */
  predicate StartsWith(s: string, prefix: string) {
    |prefix| <= |s| && s[..|prefix|] == prefix
  }

  /** The timestamp selector handed to the video task: fixed seconds or a function of the duration. */
  datatype Segment = Fixed(seconds: real) | Computed(f: real -> real)

  /** JavaScript truthiness of the configured `segment` (a function is always truthy, 0 is not). */
  predicate SegmentIsTruthy(c: SegmentConfig) {
    c.SegmentFunction? || (c.SegmentNumber? && c.seconds != 0.0)
  }

  /** `this._config.segment || 1` */
  function SegmentOrDefault(c: SegmentConfig): (s: Segment)
    ensures !SegmentIsTruthy(c) ==> s == Fixed(1.0)
    ensures c.SegmentNumber? && c.seconds != 0.0 ==> s == Fixed(c.seconds)
    ensures c.SegmentFunction? ==> s == Computed(c.f)
    ensures s.Fixed? ==> s.seconds != 0.0
  {
    match c
    case SegmentFunction(f) => Computed(f)
    case SegmentNumber(x) => if x != 0.0 then Fixed(x) else Fixed(1.0)
    case NoSegment => Fixed(1.0)
  }

  /** The time `onloadedmetadata` seeks the video to. */
  function SeekTime(s: Segment, duration: real): real {
    match s
    case Fixed(x) => x
    case Computed(f) => f(duration)
  }

  /** A missing or zero segment seeks to 1; a number seeks there; a function gets the duration. */
  lemma SeekTimeFromConfig(c: SegmentConfig, duration: real)
    ensures !SegmentIsTruthy(c) ==> SeekTime(SegmentOrDefault(c), duration) == 1.0
    ensures c.SegmentNumber? && c.seconds != 0.0 ==> SeekTime(SegmentOrDefault(c), duration) == c.seconds
    ensures c.SegmentFunction? ==> SeekTime(SegmentOrDefault(c), duration) == c.f(duration)
    ensures !c.SegmentFunction? ==> SeekTime(SegmentOrDefault(c), duration) != 0.0
  {
  }

  /** What `loadGenerator` starts for a file. */
  datatype Task = ImageTask | VideoTask(segment: Segment) | NoTask

  /**
   * The dispatch on the file's media type. The `image` test comes first; a type that matches
   * neither prefix starts nothing, because the last branch does not return its promise.
   */
  function LoadGenerator(config: Config, file: File): (t: Task)
    ensures t.ImageTask? <==> StartsWith(file.mime, "image")
    ensures t.VideoTask? <==> !StartsWith(file.mime, "image") && StartsWith(file.mime, "video")
    ensures t.NoTask? <==> !StartsWith(file.mime, "image") && !StartsWith(file.mime, "video")
    ensures t.VideoTask? ==> t.segment == SegmentOrDefault(config.segment)
  {
    if StartsWith(file.mime, "image") then ImageTask
    else if StartsWith(file.mime, "video") then VideoTask(SegmentOrDefault(config.segment))
    else NoTask
  }

  /** What `loadGenerator(file)` returns: `undefined`, or a promise that resolves or rejects. */
  datatype Outcome = NotAPromise | Resolves(entry: Entry) | Rejects(reason: Reason)

  /** A task's promise: `{ image, file }` with a new image once the element loads, the error event otherwise. */
  function Settle(file: File, d: Decode): Outcome {
    match d
    case Loaded(src) => Resolves(Artifact(Some(Img(src)), file))
    case DecodeError => Rejects(MediaError(file))
  }

  /**
   * The outcome of dispatching one file and running its task against the browser: an
   * unsupported type gives `undefined`; a task resolves with an artifact for that very file
   * and a truthy image, or rejects with that file's error.
   */
  function RunTask(config: Config, browser: Browser, file: File): (o: Outcome)
    ensures o.NotAPromise? <==> LoadGenerator(config, file).NoTask?
    ensures o.Resolves? ==> o.entry.Artifact? && o.entry.file == file && o.entry.image.Some?
    ensures o.Rejects? ==> o.reason == MediaError(file) && !LoadGenerator(config, file).NoTask?
    ensures LoadGenerator(config, file).ImageTask? ==> o == Settle(file, browser.loadImage(file, config.base64))
  {
    match LoadGenerator(config, file)
    case ImageTask =>
      Settle(file, browser.loadImage(file, config.base64))
    case VideoTask(segment) =>
      Settle(file, browser.captureFrame(file, SeekTime(segment, browser.videoDuration(file))))
    case NoTask =>
      NotAPromise
  }

  /**
   * An image file resolves with a new image of the decoded source exactly when the decode,
   * run with the configured `base64` flag, loads; it rejects with its error event otherwise.
   */
  lemma ImageDecode(config: Config, browser: Browser, file: File)
    requires StartsWith(file.mime, "image")
    ensures var d := browser.loadImage(file, config.base64);
      && (RunTask(config, browser, file).Resolves? <==> d.Loaded?)
      && (d.Loaded? ==> RunTask(config, browser, file) == Resolves(Artifact(Some(Img(d.src)), file)))
      && (d.DecodeError? ==> RunTask(config, browser, file) == Rejects(MediaError(file)))
  {
  }

  /** A video file's frame is captured at the seek time its configured segment selects. */
  lemma VideoFrameTime(config: Config, browser: Browser, file: File)
    requires !StartsWith(file.mime, "image") && StartsWith(file.mime, "video")
    ensures var t := SeekTime(SegmentOrDefault(config.segment), browser.videoDuration(file));
      RunTask(config, browser, file) == Settle(file, browser.captureFrame(file, t))
  {
  }

  /** The value `await` gives for an outcome that does not reject. */
  function Awaited(o: Outcome): Entry
    requires !o.Rejects?
  {
    match o
    case NotAPromise => Undefined
    case Resolves(e) => e
  }
}
