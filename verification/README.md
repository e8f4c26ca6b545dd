# Stress-session core of BiometricGaze, in Dafny

The Flask service in `app.py` collects heart-rate and temperature readings from a
sensor. It classifies a candidate's stress when a session ends and stores one
record per session in a document database. This project models two parts of it.

- **Classifier** (`classifier.dfy`, `predict_stress_from_data`). It checks that every
  temperature lies in the inclusive band [26, 38]. It averages the fitted model's
  per-sample predictions as `sum(P) / (2·len(P))` and maps the score to
  Resilient / Adaptive / Overwhelmed, with half-open thresholds at 0.25 and 0.75.
  Scores are exact `real`s. The fitted model is a length-preserving function value
  (`Predictor`). The `{:.2f}` float rendering is another function value (`Formatter`).
  The model appends the constant `%` itself.
- **Session state machine** (`session.dfy`). The globals `is_logging`, `current_id` and
  `buffered_data` become one immutable `State`. It also holds `stored`, the log of
  documents handed to `insert_one`. Each live handler is a pure function from a state
  to an `Outcome`, which holds the new state, the response and the call made into the
  gaze tracker.
  - `/startLogging` and `/startAll` are modelled by `Start`.
  - `/stopLogging` and `/stopAll` are modelled by `Stop`.
  - `POST /data` is modelled by `Ingest`.
  - `GET /data` is modelled by `Query`.
  - `Step` dispatches a request to its handler.
  - Each request also gets an `Env`. It holds the collaborators' answers: the model,
    the formatter, the gaze tracker's stop result and whether the insert raises.
- **Properties of runs** (`session_properties.dfy`). These cover reachable-state
  invariants, the append-only log, arrival order of readings and a complete
  start–post–stop session.

The model records these behaviours of the code as they are:

- The id is assigned before it is checked. So a rejected start overwrites `current_id`
  but keeps `is_logging` and the buffer. In the middle of a session, this leaves an
  active session with no id. The next stop then stores a record whose `candidateId` is
  null (`RejectedStartErasesActiveId`). Of the rule "an id is set exactly while
  logging", only the idle half holds (`ReachableIdleHasNoId`).
- Readings are buffered whether or not a session is active.
- A stop with an empty buffer raises. The frame built from an empty list has no TEMP
  column. A stop whose temperatures are out of band also raises, because the failure
  dictionary has no `average_stress` key. Both become `Crash`, and the state is left
  unchanged. Nothing checks for an empty buffer before classifying it.
- The state is reset only after `insert_one` returns. A failing insert therefore
  leaves the session running, with its buffer intact. Nothing resets the state when
  `insert_one` raises.
- In `/stopAll` the gaze tracker is stopped right after classification returns. That
  happens before the code notices a failed classification. So a rejected buffer still
  stops the gaze tracker (`gazeCall == GazeStopped` on that crash).

## Model

| member | source | states |
|---|---|---|
| Classifier.CountOutOfBand | app.py:48-50 | the vectorised out-of-band count that decides rejection is zero exactly when every temperature lies in [26, 38], and never exceeds the number of samples |
| Classifier.OutOfBandCons | app.py:49 | a buffer has an out-of-band temperature exactly when its first sample does or the rest of the buffer has one |
| Classifier.BandEdges | app.py:49 | the band is inclusive: 26 and 38 pass, 25.9 and 38.1 are rejected |
| Classifier.Features | app.py:52 | the feature matrix has one row per sample, in order, holding that sample's HR and TEMP with datetime dropped |
| Classifier.AvgStress | app.py:56 | the score times twice the number of predictions gives back their sum, so the divisor is 2·len(P) |
| Classifier.LabelOf | app.py:58-63 | each label as an if-and-only-if on the score: Resilient below 0.25, Adaptive on [0.25, 0.75), Overwhelmed from 0.75 up |
| Classifier.Classify | app.py:45-70 | an empty buffer raises; the failure result comes back exactly when some temperature is out of band, with the band message; otherwise the label and the percent string come from the average of the model's predictions |
| Classifier.ClassifyIgnoresModelWhenRejected | app.py:46-54 | on an empty or out-of-band buffer the outcome is the same for every model and formatter, and is never a success: the model is not consulted |
| Classifier.ClassifyDependsOnlyOnPredictions | app.py:52-70 | two models that agree on this buffer's feature matrix give the same classification |
| Classifier.LabelMonotonic | app.py:58-63 | a higher score never yields a lower label |
| Classifier.LabelBySum | app.py:56-63 | with n predictions the label splits the prediction sum at n/2 and 3n/2, so the divisor 2n is taken into account |
| Classifier.SumBounds | app.py:56 | predictions in [0, 2] sum to between 0 and 2n |
| Classifier.ScoreWithinUnit | app.py:56-65 | predictions in [0, 2] give a score in [0, 1] and a reported percentage in [0, 100] |
| Classifier.QuarterIsAdaptive | app.py:56-61 | predictions 0 and 1 give a score of exactly 0.25, which is labelled Adaptive, shown as 25 percent |
| Classifier.ThreeQuartersIsOverwhelmed | app.py:56-63 | predictions 1 and 2 give a score of exactly 0.75, which is labelled Overwhelmed, shown as 75 percent |
| Session.Truthy | app.py:103 | an id counts as missing exactly when it is absent (or null) or the empty string, as `not current_id` does for strings (also app.py:250) |
| Session.Start | app.py:97-108 | the id is always overwritten; an accepted start (non-empty id, even mid-session) sets logging, empties the buffer and answers 200; a rejected one answers 400 and keeps logging flag and buffer; the combined variant (app.py:241-259) also starts the gaze tracker, only on acceptance |
| Session.RecordOf | app.py:118-123 | the persisted record holds the current id, the percent string, the label and the whole buffer, and the gaze summary exactly for the combined variant (app.py:274-281) |
| Session.Stop | app.py:111-136 | stopping while idle answers 400 and changes nothing; an empty buffer, a rejected buffer and a failing insert each raise their own fault and leave the state unchanged; success appends a record with the pre-stop id, the label, the percent string and the whole buffer, then resets to idle, no id, empty buffer; the combined variant (app.py:261-296) stores the gaze summary and returns only the focus index |
| Session.Ingest | app.py:204-226 | a reading missing bpm or temperature answers 400 and changes nothing; otherwise exactly that reading is appended at the end, whatever the logging state, and nothing else changes |
| Session.Query | app.py:228-239 | never changes the state; answers the last buffered reading's bpm, temperature and datetime, and 404 exactly when the buffer is empty |
| Session.Step | app.py:118-125 | the stored log is append-only: a request keeps every stored record and adds at most one, exactly when it is a successful stop |
| SessionProperties.RunAppend | app.py:26-28 | handling two request sequences one after the other is handling their concatenation (the globals persist between requests) |
| SessionProperties.RunKeepsStored | app.py:125 | over any request sequence, previously inserted records stay as they were |
| SessionProperties.StepKeepsIdleHasNoId | app.py:99-128 | no handler leads to an idle state with a non-empty id |
| SessionProperties.RunKeepsIdleHasNoId | app.py:99-128 | the idle-has-no-id invariant holds across any request sequence |
| SessionProperties.ReachableIdleHasNoId | app.py:26-28 | every state reachable from the initial globals is either logging or has no non-empty id |
| SessionProperties.RejectedStartErasesActiveId | app.py:101-104 | start "C1", start with no id, post a reading: the session is still logging with no id, and the next stop stores a record with a null candidate id |
| SessionProperties.StepKeepsStoredValid | app.py:115-125 | a handler only stores a record whose biometrics are non-empty and entirely in band |
| SessionProperties.RunKeepsStoredValid | app.py:115-125 | that validity of all stored records holds across any request sequence |
| SessionProperties.PostsAppendInOrder | app.py:217-224 | posting readings appends exactly them, in arrival order, whatever the logging state, and changes nothing else |
| SessionProperties.IngestThenQuery | app.py:217-237 | right after a reading is accepted, the latest-reading query returns it |
| SessionProperties.LastStartWins | app.py:101-107 | an accepted start gives the same state whatever start came before it |
| SessionProperties.CompleteSession | app.py:97-128 | start with an id, post in-band readings, stop: exactly one record is added, with that id, the classification of those readings, the readings in order and the gaze summary for the combined variant; afterwards the machine is idle with an empty buffer |

## Left out

- HTTP routing, JSON parsing and the framework's status plumbing. Requests and
  responses are abstract datatypes. An escaped exception is a `Crash`; the framework
  would answer it with a server error. A request body that is not a JSON object is
  not modelled.
- Ids and readings have fixed types. Ids are strings, so falsy non-string ids such as
  `0` or `false` are not modelled. Readings are numbers (`real`), so non-numeric bpm
  or temperature values are not modelled.
- The database client (app.py:17-23). `insert_one` becomes an append to `stored`, plus
  a flag for whether it raises. The `_id` field it adds to the document is not modelled.
- Loading the pickled model (app.py:38-41) and `model.predict`. They are foreign
  code, so the model is an uninterpreted length-preserving function value.
- Classifier.Classify: the `{:.2f}` rendering of binary floats is an uninterpreted
  `Formatter` applied to the exact score times 100. Its rounding is not modelled.
- The gaze tracker module: `start_logging`, `stop_logging`, `generate_video_feed` and
  the routes `/startLoggingCam`, `/stopLoggingCam` and `/video_feed` (app.py:74-93).
  This is external code. The model records only which hook a handler calls. The stop
  result is an opaque (patterns, focus index) pair taken from `Env`. What the tracker
  does when started or stopped, and whether its hooks raise, is not modelled.
- The camera thread (app.py:32-34, 300). It is concurrency with no session logic.
- Concurrency between requests. Flask's threaded server (`app.run`, app.py:303) can run
  handlers at the same time, and they update the globals without a lock. The model
  treats every handler as atomic: a `Run` handles requests one after another. So it
  does not show two interleavings. A reading posted between classification (app.py:116)
  and the insert (app.py:125) is appended to the very list the record stores, so it is
  stored without having been classified. A reading posted between the insert and the
  reset (app.py:125-126) is lost.
- The `print` of each received body (app.py:210). It is console output only.
- Floating-point arithmetic. Temperatures, heart rates, the prediction sum, the division
  by `2·len(P)` and the threshold comparisons (app.py:49, 56-63) are IEEE doubles in the
  code and exact `real`s in the model. Rounding near a threshold is not modelled.
- Non-finite readings. Python's JSON parser accepts `NaN` and `Infinity`. A NaN
  temperature makes both comparisons at app.py:49 false, so it passes the band check.
  Every model reading is a finite real that is either in band or out of it, so such
  inputs cannot be written.
- The `datetime.now()` stamp (app.py:220). It is an opaque string in the request.
- The commented-out handlers (app.py:139-199). They are not live code.
