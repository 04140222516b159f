/** The poll-update state machine of the App component: the six pieces of
    component state and how one poll (`fetchData`) and the one-second
    animation timeout move them. Every transition is a pure function here;
    the class in AppComponent performs the same updates in place. */
module Polling {

  import opened Wrappers
  import opened ApiTypes

  /** What one call of the fetch produced: a parsed payload, or an error
      (network failure or unparsable body) that ends in the `catch`. */
  datatype PollOutcome = Success(data: ApiData) | Failure

  /** The discrete events that change the component's state. */
  datatype Event = Poll(outcome: PollOutcome) | AnimationTimeout

  /** The component's state variables, named as in the source. */
  datatype AppState = AppState(
    loading: bool,
    apiData: Option<ApiData>,
    previousDonationAmount: Option<int>,
    animate: bool,
    initialLoad: bool,
    cagnotte: Option<int>)

  /** The initial values given to `useState`. */
  function Initial(): AppState
  {
    AppState(true, None, None, false, true, None)
  }

  /** The part of `fetchData` before the request is awaited. */
  function BeginPoll(s: AppState): AppState
  {
    if s.initialLoad then s.(loading := true) else s
  }

  /** The comparison with the previous snapshot dereferences
      `donationAmount.number` of both payloads without optional chaining, so
      it throws when either one has no total. */
  predicate Throws(s: AppState, data: ApiData)
  {
    s.apiData.Some? && (data.donationAmount.None? || s.apiData.value.donationAmount.None?)
  }

  /** Whether the poll reaches `setApiData`: it succeeded and did not throw. */
  predicate Accepts(s: AppState, outcome: PollOutcome)
  {
    outcome.Success? && !Throws(s, outcome.data)
  }

  /** The `try` block on a payload that does not throw: signal a changed
      total when there was a previous snapshot, then publish the payload. */
  function Accept(s: AppState, data: ApiData): AppState
    requires !Throws(s, data)
  {
    var signalled :=
      if s.apiData.Some? && data.donationAmount.value.number != s.apiData.value.donationAmount.value.number
      then s.(previousDonationAmount := Some(s.apiData.value.donationAmount.value.number), animate := true)
      else s;
    signalled.(apiData := Some(data), cagnotte := TotalOf(data))
  }

  /** The part of `fetchData` after the request resolved or failed. */
  function Settle(s: AppState, outcome: PollOutcome): AppState
  {
    var t := if Accepts(s, outcome) then Accept(s, outcome.data) else s;
    t.(loading := false, initialLoad := false)
  }

  /** One whole call of `fetchData`. */
  function PollOnce(s: AppState, outcome: PollOutcome): AppState
  {
    Settle(BeginPoll(s), outcome)
  }

  /** The callback of the one-second `setTimeout`. */
  function Timeout(s: AppState): AppState
  {
    s.(animate := false)
  }

  function Step(s: AppState, e: Event): AppState
  {
    match e
    case Poll(outcome) => PollOnce(s, outcome)
    case AnimationTimeout => Timeout(s)
  }

  /** The state after the events `es`, in order, starting from `s`. */
  function Run(s: AppState, es: seq<Event>): AppState
    decreases |es|
  {
    if es == [] then s else Step(Run(s, es[..|es| - 1]), es[|es| - 1])
  }

  /** The consistency the state keeps between polls:
      - `cagnotte` is the total of the published snapshot;
      - a recorded previous total differs from the published one;
      - the animation runs only once a previous total is recorded;
      - a snapshot exists only after the initial load, and the loading
        screen is only ever shown during the initial load. */
  ghost predicate Inv(s: AppState)
  {
    && s.cagnotte == (if s.apiData.Some? then TotalOf(s.apiData.value) else None)
    && (s.previousDonationAmount.Some? ==> s.cagnotte.Some? && s.cagnotte != s.previousDonationAmount)
    && (s.animate ==> s.previousDonationAmount.Some?)
    && (s.apiData.Some? ==> !s.initialLoad)
    && (!s.initialLoad ==> !s.loading)
  }

  // ---------------------------------------------------------------------
  // One poll

  /** A successful poll that does not throw publishes the payload and its total.
      On the first poll nothing can throw. */
  lemma SuccessReplacesSnapshot(s: AppState, data: ApiData)
    requires s.apiData.None? || (data.donationAmount.Some? && s.apiData.value.donationAmount.Some?)
    ensures PollOnce(s, Success(data)).apiData == Some(data)
    ensures PollOnce(s, Success(data)).cagnotte == TotalOf(data)
  {
  }

  /** With a previous snapshot, the poll starts the animation and records the
      old total exactly when the total changed; an unchanged total leaves
      both fields alone. */
  lemma ChangeSignal(s: AppState, data: ApiData)
    requires Inv(s)
    requires s.apiData.Some? && s.apiData.value.donationAmount.Some? && data.donationAmount.Some?
    ensures var old_total := s.apiData.value.donationAmount.value.number;
            var r := PollOnce(s, Success(data));
            (r.animate && r.previousDonationAmount == Some(old_total))
            <==> data.donationAmount.value.number != old_total
    ensures var r := PollOnce(s, Success(data));
            data.donationAmount.value.number == s.apiData.value.donationAmount.value.number ==>
              r.animate == s.animate && r.previousDonationAmount == s.previousDonationAmount
  {
  }

  /** The timeout clears the animation flag and touches nothing else. */
  lemma TimeoutClearsAnimation(s: AppState)
    ensures !Timeout(s).animate
    ensures Timeout(s).(animate := s.animate) == s
  {
  }

  /** Without a previous snapshot there is nothing to compare: no animation
      starts and no previous total is recorded. */
  lemma FirstPollNeverSignals(s: AppState, outcome: PollOutcome)
    requires s.apiData.None?
    ensures PollOnce(s, outcome).animate == s.animate
    ensures PollOnce(s, outcome).previousDonationAmount == s.previousDonationAmount
  {
  }

  /** A failed fetch, and a payload without a total arriving while a
      snapshot is shown, leave the data fields untouched. */
  lemma FailureKeepsData(s: AppState, outcome: PollOutcome)
    requires outcome.Failure? || (s.apiData.Some? && outcome.data.donationAmount.None?)
    ensures var r := PollOnce(s, outcome);
            r.apiData == s.apiData && r.cagnotte == s.cagnotte &&
            r.previousDonationAmount == s.previousDonationAmount && r.animate == s.animate
  {
  }

  /** `loading` is raised at the start only during the initial load; every
      poll ends with both flags down. */
  lemma LoadingFlags(s: AppState, outcome: PollOutcome)
    ensures BeginPoll(s).loading <==> s.initialLoad || s.loading
    ensures BeginPoll(s).(loading := s.loading) == s
    ensures !PollOnce(s, outcome).loading && !PollOnce(s, outcome).initialLoad
  {
  }

  lemma StepPreservesInv(s: AppState, e: Event)
    requires Inv(s)
    ensures Inv(Step(s, e))
  {
  }

  // ---------------------------------------------------------------------
  // Sequences of events

  /** Whether some event of `es` is a poll. */
  predicate HasPoll(es: seq<Event>)
  {
    exists i :: 0 <= i < |es| && es[i].Poll?
  }

  /** Whether some event of `es` is a successful poll. */
  predicate HasSuccess(es: seq<Event>)
  {
    exists i :: 0 <= i < |es| && es[i].Poll? && es[i].outcome.Success?
  }

  /** Every reachable state is consistent. */
  lemma {:induction false} RunPreservesInv(s: AppState, es: seq<Event>)
    requires Inv(s)
    ensures Inv(Run(s, es))
    decreases |es|
  {
    if es != [] {
      RunPreservesInv(s, es[..|es| - 1]);
      StepPreservesInv(Run(s, es[..|es| - 1]), es[|es| - 1]);
    }
  }

  lemma ReachableStatesAreConsistent(es: seq<Event>)
    ensures Inv(Run(Initial(), es))
  {
    RunPreservesInv(Initial(), es);
  }

  /** Once any poll has finished, `loading` and `initialLoad` are false for good. */
  lemma {:induction false} LoadingAfterRun(s: AppState, es: seq<Event>)
    ensures Run(s, es).loading == (s.loading && !HasPoll(es))
    ensures Run(s, es).initialLoad == (s.initialLoad && !HasPoll(es))
    decreases |es|
  {
    if es != [] {
      var front := es[..|es| - 1];
      LoadingAfterRun(s, front);
      if HasPoll(front) {
        var i :| 0 <= i < |front| && front[i].Poll?;
        assert es[i] == front[i];
      }
      if HasPoll(es) && !es[|es| - 1].Poll? {
        var i :| 0 <= i < |es| && es[i].Poll?;
        assert front[i] == es[i];
      }
    }
  }

  /** A snapshot, once published, is never cleared; the first successful
      poll always publishes one. */
  lemma {:induction false} SnapshotAfterRun(s: AppState, es: seq<Event>)
    ensures Run(s, es).apiData.Some? == (s.apiData.Some? || HasSuccess(es))
    decreases |es|
  {
    if es != [] {
      var front := es[..|es| - 1];
      SnapshotAfterRun(s, front);
      if HasSuccess(front) {
        var i :| 0 <= i < |front| && front[i].Poll? && front[i].outcome.Success?;
        assert es[i] == front[i];
      }
      var last := es[|es| - 1];
      if HasSuccess(es) && !(last.Poll? && last.outcome.Success?) {
        var i :| 0 <= i < |es| && es[i].Poll? && es[i].outcome.Success?;
        assert front[i] == es[i];
      }
    }
  }

  /** Polls that fail, and timeouts, never change the published data. */
  lemma {:induction false} FailuresKeepSnapshot(s: AppState, es: seq<Event>)
    requires forall i :: 0 <= i < |es| ==> !(es[i].Poll? && es[i].outcome.Success?)
    ensures Run(s, es).apiData == s.apiData
    ensures Run(s, es).cagnotte == s.cagnotte
    ensures Run(s, es).previousDonationAmount == s.previousDonationAmount
    decreases |es|
  {
    if es != [] {
      FailuresKeepSnapshot(s, es[..|es| - 1]);
    }
  }

  /** A first snapshot without a total makes every later comparison throw,
      so no later payload is ever published, whatever it carries. */
  lemma {:induction false} MissingTotalFreezesSnapshot(s: AppState, es: seq<Event>)
    requires s.apiData.Some? && s.apiData.value.donationAmount.None?
    ensures Run(s, es).apiData == s.apiData
    ensures Run(s, es).cagnotte == s.cagnotte
    ensures Run(s, es).previousDonationAmount == s.previousDonationAmount
    decreases |es|
  {
    if es != [] {
      MissingTotalFreezesSnapshot(s, es[..|es| - 1]);
    }
  }

  /** Whether a poll event that succeeded carries a total. */
  predicate CarriesTotal(e: Event)
  {
    e.Poll? && e.outcome.Success? ==> e.outcome.data.donationAmount.Some?
  }

  /** The payload of the last successful poll of `es`, if any. */
  function LatestSuccess(es: seq<Event>): Option<ApiData>
    decreases |es|
  {
    if es == [] then None
    else
      var last := es[|es| - 1];
      if last.Poll? && last.outcome.Success? then Some(last.outcome.data)
      else LatestSuccess(es[..|es| - 1])
  }

  /** When every payload carries a total, the published snapshot is the
      payload of the most recent successful poll. */
  lemma {:induction false} LatestSuccessPublished(s: AppState, es: seq<Event>)
    requires s.apiData.None? || s.apiData.value.donationAmount.Some?
    requires forall i :: 0 <= i < |es| ==> CarriesTotal(es[i])
    ensures Run(s, es).apiData == (if LatestSuccess(es).Some? then LatestSuccess(es) else s.apiData)
    ensures Run(s, es).apiData.None? || Run(s, es).apiData.value.donationAmount.Some?
    decreases |es|
  {
    if es != [] {
      LatestSuccessPublished(s, es[..|es| - 1]);
      assert CarriesTotal(es[|es| - 1]);
    }
  }

  /** The scenario of a first poll, a changed total, the timeout and a
      failed poll: the total moves from 1000 to 1200 with one animation,
      and the failure keeps 1200 on screen. */
  lemma ScenarioChangeThenFailure(d1: ApiData, d2: ApiData)
    requires d1.donationAmount.Some? && d1.donationAmount.value.number == 1000
    requires d2.donationAmount.Some? && d2.donationAmount.value.number == 1200
    ensures var s1 := Run(Initial(), [Poll(Success(d1))]);
            !s1.initialLoad && !s1.loading && !s1.animate && s1.cagnotte == Some(1000)
    ensures var s2 := Run(Initial(), [Poll(Success(d1)), Poll(Success(d2))]);
            s2.animate && s2.previousDonationAmount == Some(1000) && s2.cagnotte == Some(1200)
    ensures var s3 := Run(Initial(), [Poll(Success(d1)), Poll(Success(d2)), AnimationTimeout]);
            !s3.animate && s3.cagnotte == Some(1200)
    ensures var s4 := Run(Initial(), [Poll(Success(d1)), Poll(Success(d2)), AnimationTimeout, Poll(Failure)]);
            s4.apiData == Some(d2) && s4.cagnotte == Some(1200) && !s4.loading
  {
    var e1, e2, e3, e4 := Poll(Success(d1)), Poll(Success(d2)), AnimationTimeout, Poll(Failure);
    assert [e1, e2][..1] == [e1];
    assert [e1, e2, e3][..2] == [e1, e2];
    assert [e1, e2, e3, e4][..3] == [e1, e2, e3];
  }
}
