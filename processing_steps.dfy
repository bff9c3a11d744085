/** The four-stage progress indicator of the processing page
    (src/components/Processingsteps.tsx). Every stage is classified by
    comparing its position in the fixed stage list with the position of the
    job's status tag in the same list. */
module ProcessingSteps {
  import T = Types

  datatype Step = Step(key: string, title: string, description: string)  // `title` is the source's `label`

  /** How a stage is drawn. */
  datatype StepStatus = Completed | Current | Error | Upcoming

  /** The stages, in the order they are drawn. */
  const Steps: seq<Step> := [
    Step("uploading", "Uploading Dataset", "Uploading and validating your data file"),
    Step("processing", "Data Processing", "Cleaning and preparing data for analysis"),
    Step("analyzing", "Analysis", "Running biodiversity analysis algorithms"),
    Step("completed", "Completed", "Analysis complete, generating report")
  ]

  /** `Array.prototype.findIndex` on the stage keys: the first position whose
      key is `key`, or -1 when no stage has that key. */
  function FindIndex(steps: seq<Step>, key: string): (i: int)
    ensures -1 <= i < |steps|
    ensures 0 <= i ==> steps[i].key == key
    ensures 0 <= i ==> forall j :: 0 <= j < i ==> steps[j].key != key
    ensures i == -1 <==> forall j :: 0 <= j < |steps| ==> steps[j].key != key
    decreases |steps|
  {
    if |steps| == 0 then -1
    else if steps[0].key == key then 0
    else
      var k := FindIndex(steps[1..], key);
      if k == -1 then -1 else k + 1
  }

  /** The classification of the stage keyed `stepKey` under `status`. The
      `Error` outcome needs a key that is not one of the stages, so it is
      never produced for a drawn stage. */
  function GetStepStatus(status: T.ProcessingStatus, stepKey: string): (r: StepStatus)
    ensures r == Error ==> status.status == T.Error
    ensures r == Error ==> forall j :: 0 <= j < |Steps| ==> Steps[j].key != stepKey
  {
    var stepIndex := FindIndex(Steps, stepKey);
    var currentIndex := FindIndex(Steps, T.StatusKey(status.status));
    StatusKeyPosition(status.status);
    if stepIndex < currentIndex then Completed
    else if stepIndex == currentIndex then (if status.status == T.Error then Error else Current)
    else Upcoming
  }

  /** The indicator as drawn: one classification per stage, in stage order. */
  function Render(status: T.ProcessingStatus): seq<StepStatus> {
    seq(|Steps|, i requires 0 <= i < |Steps| => GetStepStatus(status, Steps[i].key))
  }

  /** Whether a stage shows the progress percentage next to its label. */
  predicate ShowsPercentage(stepStatus: StepStatus, progress: real) {
    stepStatus == Current && progress > 0.0
  }

  /** Whether a stage shows the backend's current-step text under its label
      (an empty string is falsy). */
  predicate ShowsStepText(stepStatus: StepStatus, currentStep: string) {
    stepStatus == Current && currentStep != ""
  }

  // ---------------------------------------------------------------------
  // Reference classification, stated without list lookups.

  /** The position of a non-error status tag among the stages. */
  function StageOf(s: T.Status): (n: nat)
    requires s != T.Error
    ensures n < |Steps|
  {
    match s
    case Uploading => 0
    case Processing => 1
    case Analyzing => 2
    case Completed => 3
  }

  /** What the indicator shows at stage `i`: earlier stages done,
      the status's own stage current, later stages upcoming; a status that is
      not a stage (`error`) leaves every stage upcoming. */
  function Expected(s: T.Status, i: nat): StepStatus {
    if s == T.Error then Upcoming
    else if i < StageOf(s) then Completed
    else if i == StageOf(s) then Current
    else Upcoming
  }

  // ---------------------------------------------------------------------
  // Lemmas.

  /** The stage list is fixed: exactly four stages, keyed uploading,
      processing, analyzing, completed, in that order, all keys distinct and
      none equal to "error". */
  lemma StageOrder()
    ensures |Steps| == 4
    ensures Steps[0].key == "uploading" && Steps[1].key == "processing"
    ensures Steps[2].key == "analyzing" && Steps[3].key == "completed"
    ensures forall a, b :: 0 <= a < b < |Steps| ==> Steps[a].key != Steps[b].key
    ensures forall a :: 0 <= a < |Steps| ==> Steps[a].key != "error"
  {
    // Each key starts with a different letter: u, p, a, c; "error" starts with e.
    assert Steps[0].key[0] == 'u' && Steps[1].key[0] == 'p';
    assert Steps[2].key[0] == 'a' && Steps[3].key[0] == 'c';
    assert "error"[0] == 'e';
  }

  /** Looking up the key of stage `i` finds stage `i`. */
  lemma StageKeyPosition(i: nat)
    requires i < |Steps|
    ensures FindIndex(Steps, Steps[i].key) == i
  {
    StageOrder();
  }

  /** Looking up a status tag finds its stage; `error` is not found. */
  lemma StatusKeyPosition(s: T.Status)
    ensures FindIndex(Steps, T.StatusKey(s)) == if s == T.Error then -1 else StageOf(s)
  {
    StageOrder();
    if s != T.Error {
      assert Steps[StageOf(s)].key == T.StatusKey(s);
      StageKeyPosition(StageOf(s));
    }
  }

  /** The index comparison classifies every drawn stage as the reference
      classification says. */
  lemma Classification(status: T.ProcessingStatus, i: nat)
    requires i < |Steps|
    ensures GetStepStatus(status, Steps[i].key) == Expected(status.status, i)
  {
    StageKeyPosition(i);
    StatusKeyPosition(status.status);
  }

  /** The whole indicator agrees with the reference classification. */
  lemma RenderMatchesExpected(status: T.ProcessingStatus)
    ensures |Render(status)| == 4
    ensures forall i :: 0 <= i < 4 ==> Render(status)[i] == Expected(status.status, i)
  {
    StageOrder();
    forall i | 0 <= i < 4
      ensures Render(status)[i] == Expected(status.status, i)
    {
      Classification(status, i);
    }
  }

  /** A stage is drawn completed exactly when the status tag is the key of a
      later stage. */
  lemma CompletedIffStatusLater(status: T.ProcessingStatus)
    ensures forall i :: 0 <= i < |Steps| ==>
              (Render(status)[i] == Completed <==> T.StatusKey(status.status) in KeysFrom(i + 1))
  {
    RenderMatchesExpected(status);
    StageOrder();
    forall i | 0 <= i < |Steps|
      ensures Render(status)[i] == Completed <==> T.StatusKey(status.status) in KeysFrom(i + 1)
    {
      if status.status != T.Error {
        assert Steps[StageOf(status.status)].key == T.StatusKey(status.status);
      }
    }
  }

  /** The keys of the stages from position `from` on. */
  function KeysFrom(from: nat): set<string> {
    set j | from <= j < |Steps| :: Steps[j].key
  }

  /** For a non-error status exactly one stage is current: the one whose key
      is the status tag. */
  lemma ExactlyOneCurrent(status: T.ProcessingStatus)
    requires status.status != T.Error
    ensures forall i :: 0 <= i < |Steps| ==>
              (Render(status)[i] == Current <==> Steps[i].key == T.StatusKey(status.status))
    ensures exists i :: 0 <= i < |Steps| && Render(status)[i] == Current
    ensures forall i, j ::
              0 <= i < |Steps| && 0 <= j < |Steps| && Render(status)[i] == Current && Render(status)[j] == Current
              ==> i == j
  {
    RenderMatchesExpected(status);
    StageOrder();
    StatusKeyPosition(status.status);
    assert Steps[StageOf(status.status)].key == T.StatusKey(status.status);
    assert Render(status)[StageOf(status.status)] == Current;
  }

  /** Completed stages form a prefix and upcoming stages a suffix, and
      whatever follows the current stage is upcoming. */
  lemma PrefixAndSuffix(status: T.ProcessingStatus)
    ensures forall i, j :: 0 <= i < j < |Steps| && Render(status)[j] == Completed ==>
              Render(status)[i] == Completed
    ensures forall i, j :: 0 <= i < j < |Steps| && Render(status)[i] == Upcoming ==>
              Render(status)[j] == Upcoming
    ensures forall i, j :: 0 <= i < j < |Steps| && Render(status)[i] == Current ==>
              Render(status)[j] == Upcoming
  {
    RenderMatchesExpected(status);
  }

  /** A completed job shows the first three stages completed and the last
      one current. */
  lemma CompletedJob(status: T.ProcessingStatus)
    requires status.status == T.Completed
    ensures Render(status) == [Completed, Completed, Completed, Current]
  {
    RenderMatchesExpected(status);
  }

  /** A failed job finds no stage for its tag: every stage is upcoming and the
      `Error` classification is never drawn. */
  lemma FailedJob(status: T.ProcessingStatus)
    requires status.status == T.Error
    ensures Render(status) == [Upcoming, Upcoming, Upcoming, Upcoming]
    ensures Error !in Render(status)
  {
    RenderMatchesExpected(status);
  }

  /** Whatever the status, no drawn stage is classified `Error`. */
  lemma ErrorNeverDrawn(status: T.ProcessingStatus)
    ensures forall i :: 0 <= i < |Render(status)| ==> Render(status)[i] != Error
  {
    RenderMatchesExpected(status);
  }

  /** The percentage is shown at exactly one stage, the status's own, when the
      status is not `error` and the progress is positive, and nowhere else. */
  lemma PercentageShownAtCurrentOnly(status: T.ProcessingStatus)
    ensures forall i :: 0 <= i < |Steps| ==>
              (ShowsPercentage(Render(status)[i], status.progress) <==>
                 status.status != T.Error && status.progress > 0.0 && i == StageOf(status.status))
  {
    RenderMatchesExpected(status);
  }

  /** The step text is shown only at the status's own stage, and only when
      the status is not `error` and the text is non-empty. */
  lemma StepTextShownAtCurrentOnly(status: T.ProcessingStatus)
    ensures forall i :: 0 <= i < |Steps| ==>
              (ShowsStepText(Render(status)[i], status.currentStep) <==>
                 status.status != T.Error && status.currentStep != "" && i == StageOf(status.status))
  {
    RenderMatchesExpected(status);
  }
}
