/** The values the preview pipeline passes around. */
module PreviewTypes {

  datatype Option<T> = None | Some(value: T)

  datatype Result<T, E> = Ok(value: T) | Err(error: E)

  /** A user-selected file handle. The pipeline reads only its media type (`file.type`). */
  datatype File = File(mime: string, name: string)

  /** A DOM node: an `<img>` element and its source, or any other node a render callback builds. */
  datatype Node = Img(src: string) | Element(tag: string, text: string)

  /** One slot of `_result`: `undefined`, or an `{ image, file }` record whose `image` is `None` when falsy. */
  datatype Entry = Undefined | Artifact(image: Option<Node>, file: File)

  /** Why a promise rejects: the error event of a media element that failed to decode `file`, or a `TypeError`. */
  datatype Reason = MediaError(file: File) | TypeError

  /** How the promise returned by an `async` method settles. */
  datatype Settled = Fulfilled | Rejected(reason: Reason)

  /** The `segment` option: absent, a number of seconds, or a function of the video's duration. */
  datatype SegmentConfig = NoSegment | SegmentNumber(seconds: real) | SegmentFunction(f: real -> real)

  /** The constructor's `config` object, as far as the pipeline reads it. */
  datatype Config = Config(
    mode: Option<string>,
    filter: Option<File -> bool>,
    segment: SegmentConfig,
    base64: bool,
    render: Option<(Node, File) -> Node>)

  /** What a media element ends up with: a loaded source (object URL or data URL), or an error event. */
  datatype Decode = Loaded(src: string) | DecodeError

  /**
   * The browser work the pipeline delegates: decoding an image (re-encoded through a canvas
   * when the flag is set), a video's duration once its metadata arrives, and the frame
   * captured after seeking a video to a time.
   */
  datatype Browser = Browser(
    loadImage: (File, bool) -> Decode,
    videoDuration: File -> real,
    captureFrame: (File, real) -> Decode)
}
