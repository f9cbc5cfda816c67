# PreviewGenerator, modelled in Dafny

`PreviewGenerator` is a browser class. It turns user-selected image and video files into thumbnail `<img>` elements and can put them into a container on the page. This project models the decision logic of that class:

- **Admission.** `generatePreview` normalises its `files` argument and returns early when the list is empty. It then applies the optional `filter` and returns early again when nothing is left.
- **Dispatch.** `loadGenerator` routes each file by the prefix of its media type to the image task or the video task. The video task's timestamp comes from `segment || 1`.
- **Running the tasks.** In `"async"` mode (also when `mode` is missing or empty) the outcomes are combined with `Promise.all`. In every other mode they are awaited one at a time in a loop that pushes into `_result`.
- **Instance state.** The batch leaves `_files`, `_result` and `duration` behind.
- **Rendering.** `renderPreviews` builds one node per entry of `this._result` that has an image, using `config.render` or `defaultRender`. It then replaces the children of the target element, if there is one.

The media work itself is abstract. Decoding an image, reading a video's duration, seeking and capturing a frame are the three total functions of a `Browser` value. `loadImage` (which receives the `base64` flag) and `captureFrame` either load a source or fail with an error event. `videoDuration` always gives a duration: an error of the video itself, which line 112 reports before or after the seek, is folded into `captureFrame`'s failure. The per-file outcome is then `undefined` (unsupported type), a resolved `{ image, file }`, or a rejection.

Modules:

- `Seqs`: the filter and the positions it keeps.
- `PreviewTypes`: files, nodes, entries, configuration and the browser.
- `Dispatch`: `loadGenerator`, `segment || 1` and the seek time.
- `Batch`: admission, `Promise.all`, the sequential loop's specification, and what a run leaves in `_result`.
- `Render`: the fragment, the target replacement and the `Document` class.
- `Generator`: the `PreviewGenerator` class.

`PreviewGenerator` is a Dafny class:

- Its fields are `files`, `result` and `duration`. Each is `None` while the JavaScript field is still undefined.
- `GeneratePreview`, `RunTasks` and `RenderPreviews` are methods whose postconditions give the whole new state in terms of the functions of `Batch` and `Render`.
- The sequential branch is a `while` loop. Its invariant says that after `i` files, `_result` holds exactly their awaited outcomes.
- The parallel branch is a single assignment of the mapped outcomes.

### Behaviour of the code worth knowing

- **Unsupported types keep their slot.** A file whose type is neither `image…` nor `video…` makes `loadGenerator` return `undefined`, because line 84 does not return its promise. `Promise.all` and `await` both pass `undefined` through, so `_result` keeps an `undefined` entry at that file's position: two images and an audio file give three entries, the third `undefined` (`Batch.UnsupportedFileLeavesUndefined`, `Batch.UnsupportedFileKeepsItsSlot`).
- **Rendering throws on an `undefined` slot.** The render loop destructures every entry, so an `undefined` slot throws a `TypeError`. A completed batch that contains such a file and has a container rejects after `_result` and `duration` are set, and it leaves the page untouched (`Generator.UnsupportedFileRejectsRendering`).
- **`null` throws.** A `null` file list reaches `Array.from(null)` at line 23 and throws before the emptiness test on line 25.
- **Rendering reads the field.** `renderPreviews` renders `this._result`. It uses its `result` argument only in a log message.

## Model

| member | source | states |
|---|---|---|
| `Seqs.Filter` | js/PreviewGenerator.js:29 | the kept files are input files that pass the filter, and every input file that passes is kept |
| `Seqs.KeptIndices` | js/PreviewGenerator.js:29 | the positions whose file passes the filter, each one in range, all of them present, strictly increasing |
| `Seqs.FilterKeepsOrder` | js/PreviewGenerator.js:29 | the filtered list is exactly the input at the kept positions, in their original order |
| `Seqs.FilterEmptyIff` | js/PreviewGenerator.js:28-31 | nothing survives the filter exactly when the filter returns false for every file |
| `Seqs.FilterKeepsAll` | js/PreviewGenerator.js:58-59 | when every element passes, filtering changes nothing; used only by `Generator.CompletedBatchRendersEveryFile`, where the entries of a completed batch of images and videos all pass the `if (!image)` test |
| `Dispatch.SegmentOrDefault` | js/PreviewGenerator.js:82 | a falsy `segment` (missing or 0) becomes the fixed time 1; a non-zero number or a function passes through; a fixed segment is never 0 |
| `Dispatch.SeekTimeFromConfig` | js/PreviewGenerator.js:114 | `SeekTime` (the assignment to `currentTime`) after `SegmentOrDefault`: the seek time is 1 for a missing or zero segment, the number itself for a non-zero number, and the function applied to the video's duration for a function |
| `Dispatch.LoadGenerator` | js/PreviewGenerator.js:77-86 | an `image` prefix gives the image task; otherwise a `video` prefix gives the video task with the segment or its default of 1; any other type starts nothing |
| `Dispatch.RunTask` | js/PreviewGenerator.js:89-126 | with `Settle` standing for a task's `resolve` (lines 99, 120) and `reject` (lines 93, 112), the outcome is `undefined` exactly for unsupported types; a resolved task carries that very file and a truthy image; a rejection is that file's error event and comes only from an image or video task; an image task's outcome is the settlement of `loadImage` with the configured `base64` flag (line 96) |
| `Dispatch.ImageDecode` | js/PreviewGenerator.js:89-104 | an image file resolves exactly when its decode with the configured `base64` flag loads, with a new image of that source and the file itself, and rejects with its error event otherwise |
| `Dispatch.VideoFrameTime` | js/PreviewGenerator.js:114-121 | a video file's frame is captured at the seek time its configured segment selects from the video's duration |
| `Batch.Normalize` | js/PreviewGenerator.js:21-24 | an omitted list is `[]`, `null` throws a `TypeError` from `Array.from`, and an array or array-like list gives its files unchanged |
| `Batch.Admit` | js/PreviewGenerator.js:21-31 | the batch throws exactly for a `null` list; it runs only on a non-empty list, which is the whole input without a filter and the filtered input with one |
| `Batch.EarlyReturnIff` | js/PreviewGenerator.js:21-31 | the batch returns early exactly when the list is omitted or empty, or when a filter is set and rejects every file |
| `Batch.FirstRejected` | js/PreviewGenerator.js:44-46 | the first position whose task rejects, or the length: no earlier task rejects and the one there does |
| `Batch.AwaitEach` | js/PreviewGenerator.js:44-46 | the awaited values of the outcomes, one per outcome, at the same index |
| `Batch.PromiseAll` | js/PreviewGenerator.js:42 | succeeds exactly when no task rejects, and then holds each awaited outcome at its own index; otherwise rejects with the reason of a task that rejected |
| `Batch.RunBatch` | js/PreviewGenerator.js:36-47 | the mode is chosen by `RunsInParallel` (line 41: missing, empty or `"async"` runs in parallel, any other string one by one) and the tasks are `Outcomes`, the `files.map` of line 42; a run completes exactly when no task rejects, and then `_result[i]` is the outcome of file i in both modes; on a rejection the parallel mode leaves `[]` and the sequential mode leaves the outcomes before the first failing file and rejects with its error |
| `Batch.ModesAgreeWithoutFailure` | js/PreviewGenerator.js:41-47 | when no task rejects, any two modes leave the same `_result` |
| `Batch.UnsupportedFileLeavesUndefined` | js/PreviewGenerator.js:84 | in a completed run, a file of unsupported type leaves `undefined` at its own index |
| `Batch.UnsupportedFileKeepsItsSlot` | js/PreviewGenerator.js:84 | two loadable images and an audio file complete with three entries, the third `undefined` |
| `Render.Fragment` | js/PreviewGenerator.js:58-61 | the fragment is built exactly when no entry is `undefined` (otherwise a `TypeError`), with at most one node per entry |
| `Render.FragmentSelectsImages` | js/PreviewGenerator.js:58-61 | the fragment is `render(image, file)` for exactly the entries with a truthy image, in `_result` order |
| `Render.DefaultRenderShowsImages` | js/PreviewGenerator.js:72-74 | `RendererOf` (line 57) picks `config.render` or `DefaultRender`, which hands the image back; so without a configured `render`, the fragment is the images themselves, in `_result` order |
| `Render.BuildFragment` | js/PreviewGenerator.js:56-61 | the loop builds exactly the specified fragment or throws exactly the specified `TypeError` |
| `Render.RenderEffect` | js/PreviewGenerator.js:55-68 | rendering succeeds exactly when `_result` is defined and has no `undefined` slot; only the target the container selects changes, and only when it exists; its children become the fragment; a failure changes nothing |
| `Generator.PreviewGenerator.constructor` | js/PreviewGenerator.js:2-6 | the configuration is kept, and `_files`, `_result` and `duration` start undefined |
| `Generator.PreviewGenerator.RenderPreviews` | js/PreviewGenerator.js:55-70 | the effect on the document and the settlement are those of `RenderEffect` on `this._result`, whatever the `result` argument |
| `Generator.PreviewGenerator.RunTasks` | js/PreviewGenerator.js:38-47 | from the `[]` of line 36, `_result` ends as `RunBatch` says, and the method reports a failure exactly when the run aborts, with its reason |
| `Generator.PreviewGenerator.GeneratePreview` | js/PreviewGenerator.js:21-53 | an early return or a `null` list leaves `_files`, `_result`, `duration` and the page unchanged; otherwise `_files` is the admitted list and `_result` is what the run left; an aborted run rejects without recording `duration` or rendering; a completed one records `duration` and renders when the container is truthy (`ContainerIsTruthy`, line 50: defined and not the empty string) |
| `Generator.UnsupportedFileRejectsRendering` | js/PreviewGenerator.js:58-59 | a completed batch with a file of unsupported type cannot be rendered: the fragment throws a `TypeError` |
| `Generator.CompletedBatchRendersEveryFile` | js/PreviewGenerator.js:50-61 | a completed batch of images and videos renders one node per file, in file order, each built from that file's own image |

## Left out

- The media work on lines 89-135 is abstracted as the three functions of `Browser`. This covers `Image`, `<video>`, object URLs and their revocation, and canvas drawing and encoding. The model does not capture it:
  - the `compression` format and quality;
  - the `onload` handler in `base64` mode, which is never removed: each load sets `image.src` to a new encoding, which loads again, so the image is re-encoded and reloaded without end. The promise resolves on the first load only;
  - repeated `timeupdate` events after the first resolution.
- Durations, seek times and segment values are `real` numbers, and floating-point behaviour is not modelled. A `NaN` segment is falsy in JavaScript and would become 1, but it has no counterpart here.
- The clock is not modelled. `elapsed` stands for `performance.now() - startedAt`.
- The `console` calls are left out because they are diagnostics only.
- DOM wiring is left out because it is input plumbing: `addInputEvent`, `onChange`, `querySelectorAll`, and the `selector.length` test on line 11.
- `Document` maps each selector to the children of the element it finds. It leaves out:
  - selector syntax and invalid selectors, which throw;
  - several selectors that find one element;
  - nodes moving when they are appended elsewhere.
- Tasks that never settle are not modelled. Every `Browser` decode either loads or fails, so every task settles. In the source nothing times out:
  - a video that never fires `timeupdate` or `error` leaves its task pending forever;
  - a segment function that returns `NaN` or an infinity makes the `currentTime` assignment on line 114 throw inside the event handler, which does not reject the promise.
  In parallel mode `generatePreview` then never settles unless another task rejects, in which case it rejects with that error, leaving `_result` at `[]` and `duration` unset. In sequential mode it never settles once the loop reaches that file, with `_files` set and `_result` holding the entries before it; a failure earlier in the list stops the loop before the file is reached.
- Configuration aliasing is not modelled. `config` is a constant of the class. In the source, `this._config` is the caller's own object (line 4), read again on lines 27, 57, 82, 96 and 130, so a caller who changes it between or during batches changes the behaviour.
- Aliasing of the `files` array is not modelled. `_files` is a value here. In the source, an array argument with no filter is never copied (lines 22-29), so line 35 makes `_files` the caller's own array, and later changes to that array show up in `_files`. In sequential mode, `for (const file of files)` on line 44 reads the live length, so a file the caller pushes between awaits is also run and pushed into `_result`.
- Event-loop interleaving is not modelled: concurrent tasks and overlapping `generatePreview` calls racing for the same fields. A batch runs to completion as one step.
- `Batch.PromiseAll`, and `Batch.RunBatch` in parallel mode, reject with the reason of the lowest-index failing task. In the browser, `Promise.all` rejects with whichever task fails first in time. The contract of `PromiseAll` and `RunBatch`'s parallel-mode clause promise only "a task that rejected", which covers both. `RunBatch`'s sequential-mode clause promises the first failing file, which is what the loop on lines 44-46 does.
- `Generator.PreviewGenerator.RunTasks` and `Generator.PreviewGenerator.GeneratePreview` tie their failure to `RunBatch(...).reason`, so in parallel mode with several failing files they report the lowest-index failure. The browser may report a different failing file, whichever fails first in time.
- Some arguments are narrowed to the cases the model covers. Missing behaviour under other values is out of the model:
  - `files` is undefined, `null`, an array or an array-like list of files;
  - `mode` is undefined or a string, so other falsy values are not modelled;
  - a `filter` that is not a function is the same as none;
  - `container` is undefined or a string;
  - the `result` argument of `renderPreviews`, used only for logging on line 69, is always an array.
- The user's callbacks `filter`, `render` and a `segment` function are assumed to return normally. A `filter` result is taken as a boolean.
