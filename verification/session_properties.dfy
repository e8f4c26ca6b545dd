/**
 Properties of whole request sequences against the session state machine:
 what holds in every reachable state, what a complete session persists, and
 which half of the rule "an id is set exactly while logging" the code keeps.
 */
module SessionProperties {
  import opened Classifier
  import opened Session

  /** One handled request together with its collaborators' answers. */
  datatype Event = Event(req: Request, env: Env)

  /** The state after handling a sequence of requests in order. */
  function Run(s: State, evs: seq<Event>): State
    decreases |evs|
  {
    if |evs| == 0 then s else Run(Step(s, evs[0].env, evs[0].req).state, evs[1..])
  }

  /** Running two sequences one after the other is running their concatenation. */
  lemma {:induction false} RunAppend(s: State, a: seq<Event>, b: seq<Event>)
    ensures Run(s, a + b) == Run(Run(s, a), b)
    decreases |a|
  {
    if |a| == 0 {
      assert a + b == b;
    } else {
      var s' := Step(s, a[0].env, a[0].req).state;
      assert (a + b)[0] == a[0];
      assert (a + b)[1..] == a[1..] + b;
      assert Run(s, a + b) == Run(s', a[1..] + b);
      assert Run(s, a) == Run(s', a[1..]);
      RunAppend(s', a[1..], b);
    }
  }

  /** Records already persisted are never altered or removed. */
  lemma {:induction false} RunKeepsStored(s: State, evs: seq<Event>)
    ensures |Run(s, evs).stored| >= |s.stored|
    ensures Run(s, evs).stored[..|s.stored|] == s.stored
    decreases |evs|
  {
    if |evs| > 0 {
      var s' := Step(s, evs[0].env, evs[0].req).state;
      RunKeepsStored(s', evs[1..]);
      assert s'.stored[..|s.stored|] == s.stored;
      assert Run(s, evs).stored[..|s.stored|] == Run(s', evs[1..]).stored[..|s'.stored|][..|s.stored|];
    }
  }

  /** The half of the rule "an id is set exactly while logging" that the code
      keeps: while no session is active, the id is absent or empty. */
  ghost predicate IdleHasNoId(s: State) {
    !s.isLogging ==> !Truthy(s.currentId)
  }

  lemma StepKeepsIdleHasNoId(s: State, env: Env, req: Request)
    requires IdleHasNoId(s)
    ensures IdleHasNoId(Step(s, env, req).state)
  {
  }

  lemma {:induction false} RunKeepsIdleHasNoId(s: State, evs: seq<Event>)
    requires IdleHasNoId(s)
    ensures IdleHasNoId(Run(s, evs))
    decreases |evs|
  {
    if |evs| > 0 {
      StepKeepsIdleHasNoId(s, evs[0].env, evs[0].req);
      RunKeepsIdleHasNoId(Step(s, evs[0].env, evs[0].req).state, evs[1..]);
    }
  }

  /** Every reachable state keeps the idle half of the invariant. */
  lemma ReachableIdleHasNoId(evs: seq<Event>)
    ensures IdleHasNoId(Run(Init, evs))
  {
    RunKeepsIdleHasNoId(Init, evs);
  }

  /** The other half does not hold: a rejected start during an active session
      erases the id but keeps the session running, so the next successful stop
      persists a record without a candidate id. */
  lemma RejectedStartErasesActiveId(env: Env, stamp: string)
    requires env.insertSucceeds
    ensures var s1 := Step(Init, env, StartLogging(Some("C1"))).state;
            var s2 := Step(s1, env, StartLogging(None)).state;
            var s3 := Step(s2, env, PostData(Some(80.0), Some(30.0), stamp)).state;
            var o := Step(s3, env, StopLogging);
            && s3.isLogging && s3.currentId == None
            && IsOk(o.response) && |o.state.stored| == 1 && o.state.stored[0].candidateId == None
  {
  }

  /** Every persisted record carries a non-empty biometrics list whose
      temperatures all lie in the band: stopping never persists a buffer the
      classifier rejected. */
  ghost predicate StoredValid(s: State) {
    forall k | 0 <= k < |s.stored| ::
      |s.stored[k].biometrics| > 0 && !AnyOutOfBand(s.stored[k].biometrics)
  }

  lemma StepKeepsStoredValid(s: State, env: Env, req: Request)
    requires StoredValid(s)
    ensures StoredValid(Step(s, env, req).state)
  {
  }

  lemma {:induction false} RunKeepsStoredValid(s: State, evs: seq<Event>)
    requires StoredValid(s)
    ensures StoredValid(Run(s, evs))
    decreases |evs|
  {
    if |evs| > 0 {
      StepKeepsStoredValid(s, evs[0].env, evs[0].req);
      RunKeepsStoredValid(Step(s, evs[0].env, evs[0].req).state, evs[1..]);
    }
  }

  /** The POST /data requests that deliver the given readings in order. */
  function Posts(samples: seq<Sample>, env: Env): (evs: seq<Event>)
    ensures |evs| == |samples|
    ensures forall i | 0 <= i < |samples| ::
              evs[i].req == PostData(Some(samples[i].hr), Some(samples[i].temp), samples[i].datetime)
  {
    seq(|samples|, i requires 0 <= i < |samples| =>
          Event(PostData(Some(samples[i].hr), Some(samples[i].temp), samples[i].datetime), env))
  }

  /** Posting readings appends exactly them, in arrival order, whatever the
      logging state, and changes nothing else. */
  lemma {:induction false} PostsAppendInOrder(s: State, samples: seq<Sample>, env: Env)
    ensures Run(s, Posts(samples, env)) == s.(buffer := s.buffer + samples)
    decreases |samples|
  {
    if |samples| == 0 {
      assert s.buffer + samples == s.buffer;
    } else {
      var evs := Posts(samples, env);
      var s' := Step(s, evs[0].env, evs[0].req).state;
      assert s' == s.(buffer := s.buffer + [samples[0]]);
      assert evs[1..] == Posts(samples[1..], env);
      PostsAppendInOrder(s', samples[1..], env);
      assert s'.buffer + samples[1..] == s.buffer + samples;
    }
  }

  /** Right after a reading is accepted, the latest-reading query returns it. */
  lemma IngestThenQuery(s: State, bpm: real, temperature: real, stamp: string)
    ensures var s' := Ingest(s, Some(bpm), Some(temperature), stamp).state;
            Query(s').response == Reply(200, Latest("success", bpm, temperature, stamp))
  {
  }

  /** Last start wins: an accepted start yields the same state whatever start
      preceded it. */
  lemma LastStartWins(s: State, first: Option<string>, id: Option<string>, g1: bool, g2: bool)
    requires Truthy(id)
    ensures Start(Start(s, first, g1).state, id, g2).state == Start(s, id, g2).state
  {
  }

  /** The start request of the stress-only or the combined variant. */
  function StartRequest(id: Option<string>, withGaze: bool): Request {
    if withGaze then StartAll(id) else StartLogging(id)
  }

  /** The stop request of the stress-only or the combined variant. */
  function StopRequest(withGaze: bool): Request {
    if withGaze then StopAll else StopLogging
  }

  /** A complete session: start with an id, post in-band readings, stop. The
      log gains exactly one record holding that id, the classifier's label
      and percentage for those readings, the readings themselves in order and,
      for the combined variant, the gaze tracker's summary; the machine is
      back to idle with an empty buffer. */
  lemma {:induction false} CompleteSession(s: State, id: Option<string>, samples: seq<Sample>,
                                           env: Env, withGaze: bool)
    requires Truthy(id)
    requires |samples| > 0 && !AnyOutOfBand(samples)
    requires env.insertSucceeds
    ensures var evs := [Event(StartRequest(id, withGaze), env)] + Posts(samples, env)
                       + [Event(StopRequest(withGaze), env)];
            var c := Classify(samples, env.predict, env.fmt);
            var gaze := if withGaze then Some(env.gaze) else None;
            && c.Success?
            && Run(s, evs) == State(false, None, [],
                                    s.stored + [CandidateRecord(id, c.averageStress, c.stress, gaze, samples)])
  {
    var start := [Event(StartRequest(id, withGaze), env)];
    var stop := [Event(StopRequest(withGaze), env)];
    var s1 := Start(s, id, withGaze).state;
    assert Run(s, start) == s1 by {
      assert start[1..] == [];
    }
    PostsAppendInOrder(s1, samples, env);
    var s2 := Run(s1, Posts(samples, env));
    assert s2.buffer == samples;
    assert s2.currentId == id;
    assert Run(s2, stop) == Stop(s2, env, withGaze).state by {
      assert stop[1..] == [];
    }
    RunAppend(s, start, Posts(samples, env));
    RunAppend(s, start + Posts(samples, env), stop);
  }
}
