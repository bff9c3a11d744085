/** The processing page (src/pages/Processing.tsx). With a job id from its
    route it asks the backend for the job's status once at mount and again on
    every tick of a repeating timer, and reacts to each answer: it stores the
    status, moves to the report page when the job is completed, and shows an
    error when the job failed or the request threw. */
module ProcessingPage {
  import opened Wrappers
  import opened Types
  import Steps = ProcessingSteps

  const AnalysisFailedMessage := "Analysis failed. Please try again."
  const FetchFailedMessage := "Failed to fetch status updates"

  function ReportRoute(jobId: string): string {
    "/report/" + jobId
  }

  /** A route parameter is usable only when present and non-empty. */
  predicate HasJobId(jobId: Option<string>) {
    jobId.Some? && jobId.value != ""
  }

  /** How one status request ended. */
  datatype PollOutcome = Fetched(data: ProcessingStatus) | FetchFailed

  /** The part of the page's state a status answer can change. */
  datatype PageState = PageState(status: Option<ProcessingStatus>, error: string, route: Option<string>)

  const InitialState := PageState(None, "", None)

  /** The reaction to one status answer for the job `jobId` of the route. */
  function React(st: PageState, jobId: string, o: PollOutcome): (r: PageState)
    // a fetched status is always stored; a failed request keeps the old one
    ensures r.status == if o.Fetched? then Some(o.data) else st.status
    // the only navigation is to this job's report, and only for `completed`
    ensures r.route != st.route ==>
              o.Fetched? && o.data.status == Completed && r.route == Some(ReportRoute(jobId))
    ensures o.Fetched? && o.data.status == Completed ==>
              r.route == Some(ReportRoute(jobId)) && r.error == st.error
    // an error, once shown, is never cleared
    ensures st.error != "" ==> r.error != ""
    // a failed request and a failed job each overwrite the error with their own message
    ensures o.FetchFailed? ==> r.error == FetchFailedMessage && r.route == st.route
    ensures o.Fetched? && o.data.status == Error ==>
              r.error == AnalysisFailedMessage && r.route == st.route
    // a job still under way changes nothing but the stored status
    ensures o.Fetched? && o.data.status in {Uploading, Processing, Analyzing} ==>
              r == st.(status := Some(o.data))
  {
    match o
    case Fetched(data) =>
      var st' := st.(status := Some(data));
      if data.status == Completed then st'.(route := Some(ReportRoute(jobId)))
      else if data.status == Error then st'.(error := AnalysisFailedMessage)
      else st'
    case FetchFailed =>
      st.(error := FetchFailedMessage)
  }

  /** The state after the answers `os` arrive, in order, starting from `st`. */
  function Replay(st: PageState, jobId: string, os: seq<PollOutcome>): PageState
    decreases |os|
  {
    if os == [] then st else Replay(React(st, jobId, os[0]), jobId, os[1..])
  }

  /** Whether an answer makes the page show an error. */
  predicate Fails(o: PollOutcome) {
    o.FetchFailed? || o.data.status == Error
  }

  /** The error message a failing answer shows. */
  function FailureText(o: PollOutcome): string
    requires Fails(o)
  {
    if o.FetchFailed? then FetchFailedMessage else AnalysisFailedMessage
  }

  /** The stored status is that of the last answer that carried one; with no
      such answer it is the starting one. */
  lemma {:induction false} ReplayKeepsLastStatus(st: PageState, jobId: string, os: seq<PollOutcome>)
    ensures (forall i :: 0 <= i < |os| ==> os[i].FetchFailed?) ==>
              Replay(st, jobId, os).status == st.status
    ensures forall k :: 0 <= k < |os| && os[k].Fetched? &&
                        (forall i :: k < i < |os| ==> os[i].FetchFailed?) ==>
              Replay(st, jobId, os).status == Some(os[k].data)
    decreases |os|
  {
    if os != [] {
      var st' := React(st, jobId, os[0]);
      ReplayKeepsLastStatus(st', jobId, os[1..]);
      assert forall i :: 0 <= i < |os| - 1 ==> os[1..][i] == os[i + 1];
    }
  }

  /** The page ends up showing an error exactly when it started with one or
      some answer failed. */
  lemma {:induction false} ReplayErrorIffSomeFailure(st: PageState, jobId: string, os: seq<PollOutcome>)
    ensures Replay(st, jobId, os).error != "" <==>
              st.error != "" || exists i :: 0 <= i < |os| && Fails(os[i])
    decreases |os|
  {
    if os != [] {
      var st' := React(st, jobId, os[0]);
      ReplayErrorIffSomeFailure(st', jobId, os[1..]);
      assert forall i :: 0 <= i < |os| - 1 ==> os[1..][i] == os[i + 1];
      if exists i :: 0 <= i < |os| && Fails(os[i]) {
        var i :| 0 <= i < |os| && Fails(os[i]);
        if i > 0 {
          assert Fails(os[1..][i - 1]);
        }
      }
    }
  }

  /** The error shown after a run of answers is the message of the last
      failing answer; with no failing answer it is the starting error. */
  lemma {:induction false} ReplayErrorIsLastFailure(st: PageState, jobId: string, os: seq<PollOutcome>)
    ensures (forall i :: 0 <= i < |os| ==> !Fails(os[i])) ==>
              Replay(st, jobId, os).error == st.error
    ensures forall k :: 0 <= k < |os| && Fails(os[k]) &&
                        (forall i :: k < i < |os| ==> !Fails(os[i])) ==>
              Replay(st, jobId, os).error == FailureText(os[k])
    decreases |os|
  {
    if os != [] {
      var st' := React(st, jobId, os[0]);
      ReplayErrorIsLastFailure(st', jobId, os[1..]);
      assert forall i :: 0 <= i < |os| - 1 ==> os[1..][i] == os[i + 1];
    }
  }

  /** The page navigates, and only to this job's report, exactly when some
      answer reports the job completed (or it had navigated already). */
  lemma {:induction false} ReplayRoute(st: PageState, jobId: string, os: seq<PollOutcome>)
    ensures (exists i :: 0 <= i < |os| && os[i].Fetched? && os[i].data.status == Completed) ==>
              Replay(st, jobId, os).route == Some(ReportRoute(jobId))
    ensures (forall i :: 0 <= i < |os| ==> os[i].FetchFailed? || os[i].data.status != Completed) ==>
              Replay(st, jobId, os).route == st.route
    decreases |os|
  {
    if os != [] {
      var st' := React(st, jobId, os[0]);
      ReplayRoute(st', jobId, os[1..]);
      if st'.route == Some(ReportRoute(jobId)) {
        ReplayRouteStays(st', jobId, os[1..]);
      }
      assert forall i :: 0 <= i < |os| - 1 ==> os[1..][i] == os[i + 1];
      if exists i :: 0 <= i < |os| && os[i].Fetched? && os[i].data.status == Completed {
        var i :| 0 <= i < |os| && os[i].Fetched? && os[i].data.status == Completed;
        if i > 0 {
          assert os[1..][i - 1].Fetched? && os[1..][i - 1].data.status == Completed;
        }
      }
    }
  }

  /** Once on this job's report route, later answers keep it there. */
  lemma {:induction false} ReplayRouteStays(st: PageState, jobId: string, os: seq<PollOutcome>)
    requires st.route == Some(ReportRoute(jobId))
    ensures Replay(st, jobId, os).route == Some(ReportRoute(jobId))
    decreases |os|
  {
    if os != [] {
      ReplayRouteStays(React(st, jobId, os[0]), jobId, os[1..]);
    }
  }

  // ---------------------------------------------------------------------
  // The view.

  /** The three screens the page can draw. The progress screen shows the
      indicator, the percentage and the first characters of the job id. */
  datatype View =
    | ErrorView(message: string)
    | LoadingView
    | ProgressView(stages: seq<Steps.StepStatus>, progress: real, jobLabel: string)

  /** `String.prototype.slice(0, 8)`: at most the first eight characters. */
  function JobIdLabel(id: string): (shown: string)
    ensures |shown| <= 8
    ensures shown <= id
    ensures |id| >= 8 ==> |shown| == 8
    ensures |id| < 8 ==> shown == id
  {
    if |id| <= 8 then id else id[..8]
  }

  /** The screen chosen from the error and the stored status: a non-empty
      error wins, then a missing status shows the loading screen, and only
      otherwise is the progress screen drawn. */
  function SelectView(error: string, status: Option<ProcessingStatus>): (v: View)
    ensures v.ErrorView? <==> error != ""
    ensures v.ErrorView? ==> v.message == error
    ensures v.LoadingView? <==> error == "" && status.None?
    ensures v.ProgressView? ==>
              status.Some? && v.progress == status.value.progress &&
              v.stages == Steps.Render(status.value) &&
              v.jobLabel == JobIdLabel(status.value.jobId)
  {
    if error != "" then ErrorView(error)
    else if status.None? then LoadingView
    else ProgressView(Steps.Render(status.value), status.value.progress, JobIdLabel(status.value.jobId))
  }

  /** After any answers that include a failure, the error screen is drawn
      whatever came after. */
  lemma FailureShowsErrorScreen(st: PageState, jobId: string, os: seq<PollOutcome>, i: nat)
    requires i < |os| && Fails(os[i])
    ensures var r := Replay(st, jobId, os); SelectView(r.error, r.status).ErrorView?
  {
    ReplayErrorIffSomeFailure(st, jobId, os);
  }

  /** From the initial state, answers that all report a job under way lead to
      the progress screen for the last of them, with no error and no
      navigation. */
  lemma RunningJobShowsProgress(jobId: string, os: seq<PollOutcome>)
    requires os != []
    requires forall i :: 0 <= i < |os| ==>
               os[i].Fetched? && os[i].data.status in {Uploading, Processing, Analyzing}
    ensures var r := Replay(InitialState, jobId, os);
              r.route == None && r.error == "" &&
              SelectView(r.error, r.status) ==
                ProgressView(Steps.Render(os[|os| - 1].data), os[|os| - 1].data.progress,
                             JobIdLabel(os[|os| - 1].data.jobId))
  {
    ReplayKeepsLastStatus(InitialState, jobId, os);
    ReplayErrorIffSomeFailure(InitialState, jobId, os);
    ReplayRoute(InitialState, jobId, os);
  }

  // ---------------------------------------------------------------------
  // The page object.

  class Page {
    /** The job id of the route, if any. */
    const jobId: Option<string>
    var status: Option<ProcessingStatus>
    var error: string
    /** The route navigated to, if any. */
    var route: Option<string>
    /** The job ids passed to the status request, in order. */
    var fetches: seq<string>
    /** Requests issued whose answer has not arrived yet. */
    var pending: nat
    /** Whether the repeating timer is set up. */
    var intervalActive: bool

    /** Requests and the timer exist only for a usable job id, every request
        is for that id, and no more answers are awaited than were asked for. */
    ghost predicate Valid()
      reads this
    {
      && pending <= |fetches|
      && (|fetches| > 0 || intervalActive ==> HasJobId(jobId))
      && (forall i :: 0 <= i < |fetches| ==> fetches[i] == jobId.value)
    }

    function State(): PageState
      reads this
    {
      PageState(status, error, route)
    }

    /** The screen currently drawn. */
    function View(): View
      reads this
    {
      SelectView(error, status)
    }

    constructor (jobId: Option<string>)
      ensures Valid()
      ensures this.jobId == jobId && State() == InitialState
      ensures fetches == [] && pending == 0 && !intervalActive
    {
      this.jobId := jobId;
      status := None;
      error := "";
      route := None;
      fetches := [];
      pending := 0;
      intervalActive := false;
    }

    /** The mount effect: without a usable job id nothing happens; otherwise
        one request is issued at once and the timer is set up. */
    method Mount()
      requires Valid()
      modifies this`fetches, this`pending, this`intervalActive
      ensures Valid()
      ensures !HasJobId(jobId) ==>
                fetches == old(fetches) && pending == old(pending) && intervalActive == old(intervalActive)
      ensures HasJobId(jobId) ==>
                fetches == old(fetches) + [jobId.value] && pending == old(pending) + 1 && intervalActive
    {
      if !HasJobId(jobId) {
        return;
      }
      fetches := fetches + [jobId.value];
      pending := pending + 1;
      intervalActive := true;
    }

    /** A tick of the timer issues one more request. A failed job or a failed
        request does not clear the timer, so ticks go on after them. */
    method Tick()
      requires Valid() && intervalActive
      modifies this`fetches, this`pending
      ensures Valid() && intervalActive
      ensures fetches == old(fetches) + [jobId.value] && pending == old(pending) + 1
    {
      fetches := fetches + [jobId.value];
      pending := pending + 1;
    }

    /** An answer to an earlier request arrives and the page reacts to it.
        Navigating to the report route replaces this page, whose cleanup then
        clears the timer; any other answer leaves the timer as it was. */
    method Resolve(o: PollOutcome)
      requires Valid() && pending > 0
      modifies this`status, this`error, this`route, this`pending, this`intervalActive
      ensures Valid()
      ensures pending == old(pending) - 1
      ensures State() == React(old(State()), jobId.value, o)
      ensures o.Fetched? && o.data.status == Completed ==> !intervalActive
      ensures !(o.Fetched? && o.data.status == Completed) ==> intervalActive == old(intervalActive)
      ensures Fails(o) ==> View() == ErrorView(FailureText(o))
    {
      assert fetches[0] == jobId.value;
      pending := pending - 1;
      match o
      case Fetched(data) =>
        status := Some(data);
        if data.status == Completed {
          route := Some(ReportRoute(jobId.value));
          intervalActive := false;
        } else if data.status == Error {
          error := AnalysisFailedMessage;
        }
      case FetchFailed =>
        error := FetchFailedMessage;
    }

    /** The effect's cleanup when the page goes away: the timer is cleared.
        Requests already issued may still be answered. */
    method Teardown()
      requires Valid()
      modifies this`intervalActive
      ensures Valid() && !intervalActive
    {
      intervalActive := false;
    }
  }
}
