/**
 The stress-session state machine behind the HTTP handlers of app.py. The
 process-wide globals `is_logging`, `current_id` and `buffered_data` become
 one immutable `State`; each handler becomes a pure transition from a state
 and a request to a new state and a response. Documents handed to the
 database's `insert_one` are appended to the `stored` log of the state.

 Everything a handler learns from collaborators outside the core (the fitted
 model, the float formatter, the gaze tracker's stop result, whether the
 insert raises) is passed in as an `Env`.
 */
module Session {
  import opened Classifier

  /** A value read from a request body with `.get`: `None` when the key is
      absent or null. */
  datatype Option<T> = None | Some(value: T)

  /** Python truthiness of an id: absent and empty ids are false. */
  function Truthy(id: Option<string>): (b: bool)
    ensures !b <==> id == None || id == Some("")
  {
    id.Some? && id.value != ""
  }

  /** An element of the gaze tracker's pattern list; the core never looks inside. */
  type GazePattern(==)

  /** What the gaze tracker's stop hook hands back. */
  datatype GazeSummary = GazeSummary(patterns: seq<GazePattern>, focusIndex: real)

  /** The document persisted once per completed session. `gaze` is present
      only for the combined stress-and-gaze variant. */
  datatype CandidateRecord = CandidateRecord(
    candidateId: Option<string>,
    averageStress: string,
    stressStatus: Label,
    gaze: Option<GazeSummary>,
    biometrics: seq<Sample>)

  datatype State = State(
    isLogging: bool,
    currentId: Option<string>,
    buffer: seq<Sample>,
    stored: seq<CandidateRecord>)

  /** The globals as the module initialises them, with nothing stored yet. */
  const Init: State := State(false, None, [], [])

  /** The live stress endpoints. `stamp` is the datetime string the handler
      takes from the clock when a sample arrives. */
  datatype Request =
    | StartLogging(id: Option<string>)
    | StopLogging
    | PostData(bpm: Option<real>, temperature: Option<real>, stamp: string)
    | GetData
    | StartAll(id: Option<string>)
    | StopAll

  /** Answers of the collaborators during one request. */
  datatype Env = Env(predict: Predictor, fmt: Formatter, gaze: GazeSummary, insertSucceeds: bool)

  datatype Body =
    | Message(status: string, message: string)
    | Ack(status: string)
    | Latest(status: string, bpm: real, temperature: real, datetime: string)
    | Stopped(status: string, message: string, stressResult: Classification, gazeResult: Option<real>)

  /** Exceptions a handler lets escape (the web framework answers them with a
      server error): the missing TEMP column of an empty buffer, the missing
      `average_stress` key of a failed classification, a failing insert. */
  datatype Fault = NoTempColumn | NoAverageStress | InsertFailed

  datatype Response = Reply(code: int, body: Body) | Crash(fault: Fault)

  /** The call a handler makes into the gaze tracker, if any. */
  datatype GazeCall = NoGazeCall | GazeStarted | GazeStopped

  datatype Outcome = Outcome(state: State, response: Response, gazeCall: GazeCall)

  const IdRequired: string := "ID is required"
  const NotActive: string := "Logging is not currently active"
  const SavedMessage: string := "Logging stopped and data saved to MongoDB"
  const MissingFields: string := "Missing bpm or temperature"
  const NoData: string := "No data available"
  const BothStarted: string := "Logging started for both stress and gaze."

  predicate IsOk(r: Response) {
    r.Reply? && r.code == 200
  }

  /** Starts a session (`withGaze` for the combined variant). The id is
      assigned before it is checked, so a rejected start still overwrites it;
      an accepted start discards whatever was buffered, even mid-session. */
  function Start(s: State, id: Option<string>, withGaze: bool): (o: Outcome)
    ensures o.state.currentId == id
    ensures o.state.stored == s.stored
    ensures IsOk(o.response) <==> Truthy(id)
    ensures Truthy(id) ==> o.state.isLogging && o.state.buffer == []
    ensures !Truthy(id) ==>
              && o.state.isLogging == s.isLogging
              && o.state.buffer == s.buffer
              && o.response == Reply(400, Message("failure", IdRequired))
    ensures o.gazeCall == GazeStarted <==> withGaze && Truthy(id)
    ensures o.gazeCall != GazeStopped
  {
    var s' := s.(currentId := id);
    if !Truthy(id) then
      Outcome(s', Reply(400, Message("failure", IdRequired)), NoGazeCall)
    else
      var started := s'.(isLogging := true, buffer := []);
      if withGaze then
        Outcome(started, Reply(200, Message("success", BothStarted)), GazeStarted)
      else
        Outcome(started, Reply(200, Message("success", "Logging started for ID " + id.value)), NoGazeCall)
  }

  /** The document a successful stop persists. */
  function RecordOf(s: State, stress: Label, averageStress: string, env: Env, withGaze: bool): (r: CandidateRecord)
    ensures r.candidateId == s.currentId && r.biometrics == s.buffer
    ensures r.stressStatus == stress && r.averageStress == averageStress
    ensures r.gaze.Some? <==> withGaze
    ensures withGaze ==> r.gaze == Some(env.gaze)
  {
    CandidateRecord(s.currentId, averageStress, stress, if withGaze then Some(env.gaze) else None, s.buffer)
  }

  /** Stops the session (`withGaze` for the combined variant). Classification
      runs first, on the whole buffer; the state is reset only once the record
      has been inserted, so every failure leaves the state as it was. */
  function Stop(s: State, env: Env, withGaze: bool): (o: Outcome)
    ensures !s.isLogging ==> o == Outcome(s, Reply(400, Message("failure", NotActive)), NoGazeCall)
    ensures !IsOk(o.response) ==> o.state == s
    ensures s.isLogging && |s.buffer| == 0 ==> o.response == Crash(NoTempColumn)
    ensures s.isLogging && AnyOutOfBand(s.buffer) ==> o.response == Crash(NoAverageStress)
    ensures s.isLogging && Classify(s.buffer, env.predict, env.fmt).Success? && !env.insertSucceeds ==>
              o.response == Crash(InsertFailed)
    ensures IsOk(o.response) <==>
              s.isLogging && Classify(s.buffer, env.predict, env.fmt).Success? && env.insertSucceeds
    ensures IsOk(o.response) ==>
              var c := Classify(s.buffer, env.predict, env.fmt);
              && o.state == State(false, None, [], s.stored + [RecordOf(s, c.stress, c.averageStress, env, withGaze)])
              && o.response.body == Stopped("success", SavedMessage, c,
                                            if withGaze then Some(env.gaze.focusIndex) else None)
    ensures o.gazeCall == GazeStopped <==> withGaze && s.isLogging && |s.buffer| > 0
    ensures o.gazeCall != GazeStarted
  {
    if !s.isLogging then
      Outcome(s, Reply(400, Message("failure", NotActive)), NoGazeCall)
    else
      var c := Classify(s.buffer, env.predict, env.fmt);
      // in the combined variant the gaze tracker is stopped right after a
      // classification that returned, before its result is inspected
      var call := if withGaze then GazeStopped else NoGazeCall;
      match c
      case MissingTempColumn => Outcome(s, Crash(NoTempColumn), NoGazeCall)
      case Failure(_) => Outcome(s, Crash(NoAverageStress), call)
      case Success(stress, averageStress) =>
        if !env.insertSucceeds then
          Outcome(s, Crash(InsertFailed), call)
        else
          var record := RecordOf(s, stress, averageStress, env, withGaze);
          var gazeResult := if withGaze then Some(env.gaze.focusIndex) else None;
          Outcome(State(false, None, [], s.stored + [record]),
                  Reply(200, Stopped("success", SavedMessage, c, gazeResult)), call)
  }

  /** Receives one sensor reading. Both fields are required; the reading is
      buffered whether or not a session is active. */
  function Ingest(s: State, bpm: Option<real>, temperature: Option<real>, stamp: string): (o: Outcome)
    ensures bpm.None? || temperature.None? ==>
              o == Outcome(s, Reply(400, Message("failure", MissingFields)), NoGazeCall)
    ensures bpm.Some? && temperature.Some? ==>
              && o.state.buffer == s.buffer + [Sample(bpm.value, temperature.value, stamp)]
              && o.state == s.(buffer := o.state.buffer)
              && o.response == Reply(200, Ack("success"))
    ensures o.gazeCall == NoGazeCall
  {
    if bpm.None? || temperature.None? then
      Outcome(s, Reply(400, Message("failure", MissingFields)), NoGazeCall)
    else
      var entry := Sample(bpm.value, temperature.value, stamp);
      Outcome(s.(buffer := s.buffer + [entry]), Reply(200, Ack("success")), NoGazeCall)
  }

  /** Reports the most recently buffered reading without changing anything. */
  function Query(s: State): (o: Outcome)
    ensures o.state == s
    ensures o.gazeCall == NoGazeCall
    ensures |s.buffer| == 0 <==> o.response == Reply(404, Message("failure", NoData))
    ensures |s.buffer| > 0 ==>
              var last := s.buffer[|s.buffer| - 1];
              o.response == Reply(200, Latest("success", last.hr, last.temp, last.datetime))
  {
    if |s.buffer| == 0 then
      Outcome(s, Reply(404, Message("failure", NoData)), NoGazeCall)
    else
      var last := s.buffer[|s.buffer| - 1];
      Outcome(s, Reply(200, Latest("success", last.hr, last.temp, last.datetime)), NoGazeCall)
  }

  /** Dispatches one request to its handler. The persisted log is append-only:
      a request adds at most one record, and only a successful stop adds one. */
  function Step(s: State, env: Env, req: Request): (o: Outcome)
    ensures |o.state.stored| == |s.stored| || |o.state.stored| == |s.stored| + 1
    ensures o.state.stored[..|s.stored|] == s.stored
    ensures |o.state.stored| == |s.stored| + 1 <==> (req.StopLogging? || req.StopAll?) && IsOk(o.response)
  {
    match req
    case StartLogging(id) => Start(s, id, false)
    case StopLogging => Stop(s, env, false)
    case PostData(bpm, temperature, stamp) => Ingest(s, bpm, temperature, stamp)
    case GetData => Query(s)
    case StartAll(id) => Start(s, id, true)
    case StopAll => Stop(s, env, true)
  }
}
