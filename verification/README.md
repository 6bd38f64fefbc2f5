# Simulated model training backend, modelled in Dafny

The backend keeps one in-memory record, `modelState`, describing a pretend
machine-learning model: its status (`"Not Trained"`, `"Training"`,
`"Trained"`), the time it was last trained, six evaluation metrics (all
`null` until a run completes), a three-class distribution and the log lines
of the current run. `POST /train` starts a run unless one is live (then it
answers 409). A 900 ms interval timer plays back nine scripted log lines,
one per firing, and its next firing completes the run: it installs fixed
metrics and re-rolls the class distribution. `GET /status` reports the
state with the last ten log lines.

The project has three modules:

- `LogLines` (`log_lines.dfy`) holds the nine-line template and the rewrite
  that replaces a leading `[dd:dd:dd]` clock with the current time. It also
  holds JavaScript's `slice(start)` and the "last ten lines" view.
- `TrainingRun` (`training_run.dfy`) holds the state as a value (`Snapshot`)
  and what a training request (`AfterTrain`) and one timer firing
  (`AfterTick`) do to it. It also defines a run of firings (`Ticks`), a run
  of arbitrary events (`Run`) and the invariant `Inv`. The playback
  functions take the played script as a parameter; the server always
  passes `TrainingLogsTemplate`, and the lemmas about the playback hold for
  any script. The lemmas prove the guard, the reset, the one-line-per-firing
  playback, completion on the tenth firing, the metrics/status invariant and
  the distribution bounds.
- `Server` (`model_state.dfy`) holds the class `ModelState`, whose fields
  the handlers update in place. Each method is proved against the functions
  of `TrainingRun`, and `Valid()` is `Inv` of the fields.

The environment is passed in as values. Each timer firing is a `Firing`
that carries what the callback reads from its environment: the
`toLocaleTimeString` text, the `toISOString` text and three
`Math.random()` draws, each a real in [0, 1). The run counter `i`, a
closure variable of the callback, is the field `counter`.

## Model

| member | source | states |
|---|---|---|
| LogLines.HasClockPrefix | app.js:99 | the anchored pattern `^\[\d{2}:\d{2}:\d{2}\]` matches exactly when the line's first ten characters fit the classes of `[dd:dd:dd]`, `d` being an ASCII digit |
| LogLines.RewritePrefix | app.js:99 | a line without a leading `[dd:dd:dd]` is returned unchanged; for a line with one, the result has the length of the line minus the 10-character clock plus `[stamp]`, it renders the line (opens with `[` and ends with the line's text from the clock's closing `]` on), and the stamp read back from between its brackets is exactly `stamp` |
| LogLines.RendersIsRewrite | app.js:99 | conversely, every line of that shape is the rewrite of the template line with the stamp read back from it: only the leading clock is touched |
| LogLines.TemplatePrefixes | app.js:33-43 | the template has nine lines; the first (dated, not a clock) is played unchanged; the other eight all carry a `[dd:dd:dd]` clock |
| LogLines.SliceFrom | app.js:67 | `slice(start)` returns a suffix; for a negative start its length is `min(-start, len)`, otherwise `max(len - start, 0)` |
| LogLines.RecentLogs | app.js:67 | `logs.slice(-10)` is the suffix of the log of length `min(len, 10)`, the whole log when it has at most ten lines |
| TrainingRun.Label | app.js:14 | the three status strings the code stores and compares (`"Not Trained"` here, `"Training"` at lines 74 and 79, `"Trained"` at line 106) each name exactly one status |
| TrainingRun.RollCount | app.js:112-114 | `Math.floor(r * 6) + base` for a draw `r` in [0, 1) lies in `base..base+5` |
| TrainingRun.Reroll | app.js:111-115 | the re-rolled distribution has False Positive in 45..50, Candidate in 25..30, Confirmed in 22..27 |
| TrainingRun.TrainReply.HttpStatus | app.js:75 | the reply code is 409 exactly for the conflict reply |
| TrainingRun.ReplyTo | app.js:74-76 | the `/train` handler answers with a conflict (409) exactly while a run is live, and acknowledges the start otherwise |
| TrainingRun.AfterTrain | app.js:74-90 | the state after a training request: a run is always live afterwards; a refused request changes nothing; an accepted one empties the logs, nulls the metrics, resets the counter and keeps the distribution and last-trained time |
| TrainingRun.AfterTick | app.js:93-115 | the state after one firing: the run stays live exactly while template lines remain, and then the log gains the rewrite of the next line with the firing's clock; otherwise the run is Trained with the same log, the fixed metrics, an in-range distribution and the firing's date-time |
| TrainingRun.Ticks | app.js:92-124 | the state after repeated firings: without a live run nothing changes (no timer); with one the state never falls back to "Not Trained"; the log only grows, keeping its earlier lines as a prefix |
| TrainingRun.Run | app.js:61-131 | the state after any interleaving of requests and firings: a state reported "Not Trained" is the starting state unchanged, and once a state has left "Not Trained" it never returns |
| TrainingRun.PlayedAt | app.js:93-101 | the k-th line played from script position `from` is the rewrite of script line `from + k` with that firing's clock |
| TrainingRun.TrainRefusedWhileTraining | app.js:74-76 | a training request while a run is live gets 409 and leaves the whole state (status, logs, metrics, distribution, counter) unchanged |
| TrainingRun.TrainResets | app.js:78-90 | a request from "Not Trained" or from "Trained" is accepted (200) and sets status Training, empty logs, all six metrics null and counter 0; it keeps the distribution and the last-trained time |
| TrainingRun.SecondTrainConflicts | app.js:74-90 | of two requests in a row, the first is accepted and the second refused, and the second changes nothing |
| TrainingRun.TickAppendsOne | app.js:93-101 | while lines remain, a firing appends exactly the rewrite of the next script line with the firing's clock (`logs == old logs + [RewritePrefix(line, clock)]`), advances the counter by one and changes nothing else |
| TrainingRun.TickFinishes | app.js:102-115 | the firing after the last line sets status Trained, the fixed metrics, the firing's date-time as last-trained and a distribution within its ranges, and appends no line (the log keeps one line per script line) |
| TrainingRun.InitialInv | app.js:13-30 | the initial state is "Not Trained" with all metrics null and satisfies the invariant |
| TrainingRun.TrainPreservesInv | app.js:74-90 | a training request keeps the invariant |
| TrainingRun.TickPreservesInv | app.js:92-124 | a timer firing keeps the invariant: log length equals the counter (at most the script's length), every line renders its script line, metrics are null while training and fixed once trained, the distribution stays in range |
| TrainingRun.RunPreservesInv | app.js:61-131 | any sequence of training requests and timer firings keeps the invariant |
| TrainingRun.ReachableFacts | app.js:13-131 | in every state reachable from process start: metrics are all null while training and the fixed ones once trained, a trained state has nine log lines, the log never exceeds nine lines and the distribution is in range |
| TrainingRun.TicksWhilePlaying | app.js:92-101 | firings before the script is exhausted append their lines in order and keep the run live, with the counter equal to the number of lines played |
| TrainingRun.TicksAppend | app.js:92-124 | playing firings `a` and then `b` is the same as playing `a + b` |
| TrainingRun.RunCompletesAfterScript | app.js:90-115 | after an accepted request, one firing per script line plays every line and leaves the run live; the next firing completes it with exactly those lines, the fixed metrics, its own date-time and its draws' distribution |
| TrainingRun.CompletesOnTenthFiring | app.js:33-108 | for the server's template: nine firings leave the run live, the tenth completes it with exactly nine lines and the fixed metrics, and the first line keeps its original dated text |
| Server.ModelState.constructor | app.js:13-30 | the process-start state: not trained, no logs, all metrics null, distribution 48/28/24 |
| Server.ModelState.Train | app.js:71-131 | the `/train` handler: 409 and no change while training; otherwise status Training, logs emptied, metrics nulled, counter reset; the invariant is kept |
| Server.ModelState.Tick | app.js:92-124 | the interval callback: appends the next rewritten template line, or completes the run and clears the timer; the invariant is kept |
| Server.ModelState.RunInterval | app.js:92-124 | the interval timer firing its callback until it is cleared; the resulting state is `Ticks` of the firings, and stopping early means the run completed |
| Server.ModelState.GetStatus | app.js:61-69 | the `/status` view changes nothing and reports the state's fields; its `recentLogs` is the suffix of the log of length `min(len, 10)`; its metrics are null while training and the fixed ones once trained |
| Server.TrainTwice | app.js:74-90 | on the object, two requests in immediate succession yield one start and one conflict |

## Left out

- Express, CORS, JSON-body parsing, `app.listen`, the `PORT` lookup and the `GET /` greeting route (app.js:2-10, 57-59, 133-136) are HTTP plumbing.
- The reply bodies' message strings are not modelled; only the start/conflict outcome and its status code are. An accepted request is answered with 200, not 202, because `res.json` is called without an explicit status.
- The `test_split` and `balancing` request parameters are destructured but never used (app.js:72), so they are not modelled.
- The real timer and its 900 ms period are not modelled. Each firing is an explicit `Tick` call, and `RunInterval` stands for the repeated firings.
- `Tick` requires a live run: the interval callback exists only between an accepted request and the firing that clears it.
- Clock reads are not modelled. `toLocaleTimeString` and `toISOString` are opaque strings carried by each `Firing`, so a played line's stamp is any string. (In an English locale it reads like `02:32:05 PM`, not `dd:dd:dd`.)
- `Math.random()` is not modelled. Its three draws are reals in [0, 1) carried by the `Firing`, and `floor(r * 6)` uses exact real arithmetic, not IEEE doubles.
- The metric values are decimal constants that are stored and copied, never computed with.
- LogLines.RewritePrefix: does not model the special `$` patterns of a JavaScript replacement string; the stamp is inserted literally, which matches the source for every time string, since none contains `$`.
- The second `res.json` in the completing firing (app.js:117-122) is not modelled. The request was already answered at app.js:127-130, so Express's `res.json` sets a header on a sent response and throws `ERR_HTTP_HEADERS_SENT`. The throw happens inside the `setInterval` callback (app.js:92), where nothing catches it, and app.js installs no `uncaughtException` handler, so by Node's default the process exits with code 1. As written, the completing firing sets the Trained state (app.js:104-115) and then the server stops: `GET /status` never reports "Trained" in that process, and a training request from "Trained" never happens in it. The model goes on as if that call were absent (as if the throw were caught), which is the evidently intended behaviour. So `TickFinishes`, `RunCompletesAfterScript`, `CompletesOnTenthFiring`, `ReachableFacts` and `GetStatus` describe a Trained state the program as written reaches but cannot report. `TrainResets`, `SecondTrainConflicts` and `TrainTwice` describe a restart from "Trained" that it never performs. The model therefore admits more runs than the program as written.
- The destructuring at app.js:72 reads `req.body`. Under Express 5, a POST without a JSON body leaves `req.body` undefined, so the destructuring throws and Express answers 500 before any state change. The model's training request always succeeds in reading its (unused) parameters.
- The model runs one operation at a time, and this is exact for the guard. The status read (app.js:74) and the write of "Training" (app.js:79) happen in one synchronous run of the handler, with no `await` or callback between them. Node runs each handler to completion, so a second request always sees "Training" and gets 409.
- The email helper (src.js) and the favourites and registration clients (fav.js, reg.js) talk to services outside this repository and are not part of this model.
