# Video cutter core, modelled in Dafny

`app.js` is the page script of a browser tool that cuts a video into
60-second clips with ffmpeg.wasm. This project models the logic around the
engine calls:

- the segment planner and command builder: the clip count
  `ceil(duration / 60)`, the cut list `60, 120, ...`, its comma join and the
  13-element argument list for the ffmpeg segment muxer;
- clip naming: `clipe_NNN.mp4` with a three-digit minimum width, and the
  download name `cortado_60s_<clip name>`;
- the `updateUI` projection from a status to the visible page areas;
- the page lifecycle as a class: `loadFFmpeg`, `cutVideo` (probe, stage,
  cut, read loop, `done`/`error`, `finally`), the `change` listener and the
  click listener.

Files, one module each:

- `wrappers.dfy`: `Option`.
- `text.dfy`: decimal spelling of naturals (`String(n)`), `padStart`, the
  comma join and its inverse.
- `planner.dfy`: the ceiling, the clip count, the cut list and the push loop
  that builds it, the command template, and reading an option back out of
  an argument list.
- `naming.dfy`: clip names and download names.
- `ui.dfy`: the status-to-areas mapping.
- `engine.dfy`: the ffmpeg.wasm instance as an oracle. Each call may succeed
  or fail, and the instance keeps a log of calls and outcomes.
- `job.dfy`: the calls one `cutVideo` plans, and what a run that stops at its
  first failure looks like.
- `page.dfy`: class `Page`, whose fields are the button, the three areas,
  the status and error texts, the progress value and the link list.

The engine decides how each call comes out. The outcome of reading the
video's duration is the argument `probe` of `CutVideo`: a real number, or
`None` when the browser could not read it.

Two behaviours follow the code even where one might expect otherwise:

- **Partial links stay.** When a `readFile` fails in the middle of the loop,
  the links appended before it stay in the list (app.js:184). They are
  hidden only because `updateUI('error')` hides the download area. The
  model states this as `clipList == Links(ReadsDone(body))` on every path.
- **No duration guard.** A zero or negative duration is not rejected. The
  clip count is then zero or negative, the cut list is empty and no clip is
  read. If `writeFile` and `exec` succeed, the job then reports `done` with
  no links; if either fails, it reports `error` as usual.

`padStart` and the `%03d` pattern set a minimum width, not a fixed one. So
from clip 1000 on, names simply get longer, and distinct clips never share a
name (`ClipNameInjective`).

## Model

| member | source | states |
|---|---|---|
| Planner.Ceil | app.js:133 | `Math.ceil` on an exact real: `c - 1 < x <= c` |
| Planner.ClipCount | app.js:133 | the clip count `n` is the number of 60 s windows covering the duration: `60(n-1) < duration <= 60n` |
| Planner.ExactMultiple | app.js:133-139 | a duration of exactly `k` segments gives exactly `k` clips and, for `k >= 1`, `k - 1` cuts |
| Planner.SegmentTimes | app.js:137-139 | the cut list for `n` clips has `n - 1` entries, none when `n <= 1` |
| Planner.SegmentTimesValues | app.js:136-139 | the k-th cut (from 1) is at `60k` seconds |
| Planner.PlanSegmentTimes | app.js:134-139 | the push loop builds exactly the cut list `60, ..., 60(n-1)` of the specification function |
| Planner.PlanShape | app.js:133-139 | the cut list has one entry fewer than there are clips, is strictly increasing, holds multiples of 60 only, and every cut lies strictly inside the video |
| Planner.ShortVideo | app.js:133-141 | `0 < d <= 60`: one clip, no cut, empty `-segment_times` value |
| Planner.ThreeClips | app.js:133-141 | `120 < d <= 180`: three clips, cuts `[60, 120]`, value `"60,120"` |
| Planner.Command | app.js:144-152 | the template has 13 elements: `-i input.mp4` first, `-segment_times` and the cut list at positions 8 and 9, the output pattern last |
| Planner.PlanCommand | app.js:133-152 | the first block of `cutVideo` computes the clip count and the command of the specification functions |
| Planner.CommandOptions | app.js:144-152 | the command has 13 elements and starts with `-i input.mp4`, so the input options come first: it reads `input.mp4`, copies streams (`-c copy`), maps all streams, uses the segment muxer, passes the cut list to `-segment_times` as element 9, resets timestamps, and ends with `clipe_%03d.mp4` |
| Planner.CommandCarriesPlan | app.js:141-152 | the `-segment_times` value parses back to exactly the planned cut list |
| Text.Decimal | app.js:170 | `String(n)`: non-empty, digits only, a leading `0` only for zero |
| Text.DecimalRoundTrip | app.js:170 | the decimal spelling reads back to the number |
| Text.DecimalWidth | app.js:170 | one digit below 10, two below 100, three below 1000, at least four from 1000 |
| Text.PadStart | app.js:170 | `padStart` is never shorter than the width, never truncates, and leaves a long enough string unchanged |
| Text.PadStartLayout | app.js:170 | the padded string is the original behind fill characters only |
| Text.PadStartParse | app.js:170 | zero padding keeps a digit string's value and its digits-only form |
| Text.Join | app.js:141 | the comma join is empty exactly when the list is |
| Text.Spellings | app.js:141 | one decimal spelling per entry, in order |
| Text.SplitJoin | app.js:141 | splitting the joined string at commas gives the entries' spellings |
| Text.JoinRoundTrip | app.js:141 | joining with `,` loses nothing: the list parses back |
| Naming.ClipName | app.js:170 | a clip name starts with `clipe_` and has at least 13 characters |
| Naming.ClipNameFields | app.js:170 | a clip name is `clipe_`, the padded index, `.mp4` |
| Naming.ClipNameRoundTrip | app.js:170 | the index can be read back out of its clip name |
| Naming.ClipNameInjective | app.js:170 | distinct indices give distinct clip names, with no limit at 999 |
| Naming.ClipNameWidth | app.js:170 | indices 1 to 999 give 13-character names; from 1000 the plain spelling is used, never truncated |
| Naming.DownloadName | app.js:181 | the download name starts with `cortado_60s_` and is 12 characters longer than the clip name |
| Naming.DownloadNameShape | app.js:181 | the download name is `cortado_60s_` followed by the clip name |
| Ui.Project | app.js:28-45 | at most one area is visible; none exactly for an unknown status; progress only for `loading`/`ready`, download only for `done`, error only for `error` |
| Engine.FFmpeg.Load | app.js:73-77 | loading appends one `Load` event with the engine's answer |
| Engine.FFmpeg.WriteFile | app.js:160 | staging appends one `WriteFile` event with the engine's answer |
| Engine.FFmpeg.Exec | app.js:165 | running the command appends one `Exec` event with the engine's answer |
| Engine.FFmpeg.ReadFile | app.js:173 | reading a clip appends one `ReadFile` event with the engine's answer |
| Engine.FFmpeg.DeleteFile | app.js:195 | deleting appends one `DeleteFile` event with the engine's answer |
| Job.Links | app.js:169-185 | the links for clips `1..m`, the k-th for clip `k + 1` |
| Job.LinksGrow | app.js:184 | appending the next clip's link gives the links for one more clip |
| Job.ReadCalls | app.js:169-173 | the reads are of `clipe_001.mp4` up to the clip count, in ascending order |
| Job.PlannedCallsShape | app.js:160-173 | the planned calls are two non-read calls followed by one read per clip |
| Job.ReadOrder | app.js:160-173 | the plan stages the input, runs the command, then reads clips 1..n in ascending order, and no clip twice |
| Job.ReadLoopFails | app.js:169-185 | the read loop failing at clip `i + 1` stops there, incomplete, having read `i` clips |
| Job.ReadLoopCompletes | app.js:169-185 | the read loop reading every clip completes and counts every read |
| Job.ProbeFailed | app.js:130-192 | with no duration, no engine call is made, no link is added, and the job fails |
| Job.StagingFailed | app.js:160-192 | a failed `writeFile` stops the job at once: incomplete, no read |
| Job.ExecFailed | app.js:165-192 | a failed `exec` stops the job before any read |
| Job.ReadLoopRan | app.js:160-185 | a successful stage and command followed by the read loop: the job completes exactly when the loop does, and has read what the loop read |
| Job.PlannedRun | app.js:130-185 | a run of the stage-cut-read plan built for a duration is a run of that duration's plan |
| Job.PlanHasNoLoadOrDelete | app.js:125-187 | the `try` block never loads the engine and never deletes |
| Job.DeleteOnce | app.js:193-196 | a run of the plan followed by the `finally` deletion makes exactly one deletion attempt, and never a load |
| Job.SuccessReadsEveryClip | app.js:169-187 | a job that reports `done` has read, and linked, every planned clip |
| Job.FailureMissesAClip | app.js:169-192 | a failed job with clips planned read fewer clips than it planned |
| App.Page.constructor | app.js:11-22 | a new page has no file selected, no link and every area hidden, keeps the given button state, and satisfies the class invariant as long as the engine has not failed to load |
| App.Page.UpdateUI | app.js:28-45 | the visible areas become `Project(status)`; the message and progress are shown; the error text is updated only for `error` |
| App.Page.LoadFFmpeg | app.js:50-94 | one load call. On success: button enabled, `ready`, progress 100. On failure: button disabled, `error` with the message. The link list is untouched |
| App.Page.ReadClips | app.js:169-185 | reads clips 1..n in order and stops at the first failure; it returns true exactly when every read succeeded; the links are those of the clips read |
| App.Page.StageCutRead | app.js:158-185 | stages, cuts and reads in order, stopping at the first failure; true exactly when all of that succeeded |
| App.Page.BeginJob | app.js:126-128 | clears the links, shows progress with the duration message, disables the button |
| App.Page.RunJob | app.js:125-185 | the `try` block up to `done` issues the planned calls in order until one fails; it succeeds exactly when every call succeeds; the links are those of the clips read; the button stays disabled |
| App.Page.Conclude | app.js:187-196 | reports `done` or `error` as the job went, then enables the button and makes one deletion attempt |
| App.Page.CutVideo | app.js:121-197 | with no file, nothing changes. Otherwise: the planned calls until the first failure, then exactly one deletion. The page shows `done` exactly when every call succeeded and `error` otherwise, whatever the deletion answered. The button is enabled again and the links are those of the clips read |
| App.Page.OnFileChange | app.js:200-207 | records the selection; can disable the button but never enables a disabled one; hides the download and error areas |
| App.Page.Click | app.js:209 | a click on a disabled button, or with no file selected, changes nothing; a click on an enabled button with a file runs `cutVideo` in full: the planned calls until the first failure, one deletion, `done` exactly when every call succeeded, the button enabled again, the links of the clips read. Once the engine has failed to load, the button stays disabled |

## Left out

- The ffmpeg.wasm engine itself is an oracle. Each call's success or failure is the engine's choice. What the segment muxer writes is not modelled, including which output files exist. With ffmpeg's default start number of 0 the muxer names its outputs from `clipe_000.mp4`, while the code reads from `clipe_001.mp4`. The model neither confirms nor excludes that mismatch.
- `exec` exit codes: `ffmpeg.exec` resolves with an exit code that the code ignores. The model's `Exec` answer means only "the promise resolved".
- The three `toBlobURL` fetches (app.js:67-69) are network plumbing. Together with `ffmpeg.load` they are one `Load` oracle answer.
- `getVideoDuration` (app.js:99-115) uses the browser's media API. Only its outcome is modelled: the `probe` argument, `None` for a rejection.
- Other exceptions inside the `try` block are not modelled: `file.arrayBuffer`, `Blob` and object-URL creation, DOM insertion. Only the probe and the engine calls can fail.
- Links record the clip name and the download name only. The blob data, the object URL, the link text and the CSS class are left out.
- The `log` and `progress` callbacks (app.js:54-63) are left out. They are asynchronous events from the engine, and the progress percent uses floating-point rounding.
- Floating point: durations are exact reals, so NaN and Infinity do not arise, and `Math.round((i + 1) * 60)` is the identity on the integers it receives. The code does not guard against NaN or Infinity: with an infinite duration (which the media API reports for a stream without a stored duration) the clip count is infinite and the push loop at app.js:137 never ends normally; it runs until the array length limit or memory is exhausted. With NaN the count is NaN, neither loop runs, the command gets an empty cut list and no clip is read. The MB figure (`toFixed(2)`) is not modelled.
- Message texts are opaque constants, including the ones built from `e.message`. `updateUI('done')` passes no message, which shows as empty text; the model uses `""`.
- Console output is not modelled.
- The initial page state comes from `index.html`, which is not part of this model. The constructor takes the button's initial state and starts with all areas hidden and no file selected.
- Asynchronous interleaving is not modelled: each `await` is one step, and each listener runs to completion. The top-level `loadFFmpeg()` call (app.js:212) is `LoadFFmpeg` on a freshly constructed page.
- The deletion's rejection handler (`.catch` with a console warning) is modelled as an ignored `false` answer.
