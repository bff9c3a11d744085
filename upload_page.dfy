/** The upload page (src/pages/Upload.tsx): it keeps the chosen file, a
    loading flag, an error message and the analysis options, and on submit
    sends the file and options to the backend, then moves to the processing
    page of the returned job or shows why the upload failed. */
module UploadPage {
  import opened Wrappers
  import opened Types
  import FileUploader

  /** The analysis options. The confidence threshold is kept in tenths: the
      slider only produces 0.5, 0.6, ..., 1.0. */
  datatype AnalysisConfig = AnalysisConfig(
    calculateDiversity: bool,
    generateCharts: bool,
    includeStatistics: bool,
    confidenceTenths: int)

  const DefaultConfig := AnalysisConfig(true, true, true, 8)

  /** The ceiling, in megabytes, the page hands to its file picker. */
  const PickerMaxSize: nat := 100

  const NoFileMessage := "Please select a file to upload"
  const UploadFailedMessage := "Upload failed"

  datatype ConfigKey = CalculateDiversity | GenerateCharts | IncludeStatistics | ConfidenceThreshold

  /** A value written by one of the option controls. */
  datatype ConfigValue = Flag(on: bool) | Tenths(tenths: int)

  /** The value of one option. */
  function Field(c: AnalysisConfig, key: ConfigKey): ConfigValue {
    match key
    case CalculateDiversity => Flag(c.calculateDiversity)
    case GenerateCharts => Flag(c.generateCharts)
    case IncludeStatistics => Flag(c.includeStatistics)
    case ConfidenceThreshold => Tenths(c.confidenceTenths)
  }

  /** What the controls write: a checkbox a flag into its own option, the
      slider a threshold between 0.5 and 1.0. */
  predicate Fits(key: ConfigKey, value: ConfigValue) {
    if key == ConfidenceThreshold then value.Tenths? && 5 <= value.tenths <= 10
    else value.Flag?
  }

  /** The threshold is within the slider's range. */
  predicate InRange(c: AnalysisConfig) {
    5 <= c.confidenceTenths <= 10
  }

  /** The options with `key` set to `value`, every other option kept. */
  function ChangeConfig(c: AnalysisConfig, key: ConfigKey, value: ConfigValue): (r: AnalysisConfig)
    requires Fits(key, value)
    ensures Field(r, key) == value
    ensures forall k :: k != key ==> Field(r, k) == Field(c, k)
    ensures InRange(c) ==> InRange(r)
  {
    match key
    case CalculateDiversity => c.(calculateDiversity := value.on)
    case GenerateCharts => c.(generateCharts := value.on)
    case IncludeStatistics => c.(includeStatistics := value.on)
    case ConfidenceThreshold => c.(confidenceTenths := value.tenths)
  }

  /** Changing one option twice keeps only the second value. */
  lemma ChangeConfigLastWins(c: AnalysisConfig, key: ConfigKey, v1: ConfigValue, v2: ConfigValue)
    requires Fits(key, v1) && Fits(key, v2)
    ensures ChangeConfig(ChangeConfig(c, key, v1), key, v2) == ChangeConfig(c, key, v2)
  {
  }

  /** Changing two different options gives the same result in either order. */
  lemma ChangeConfigCommutes(c: AnalysisConfig, k1: ConfigKey, v1: ConfigValue, k2: ConfigKey, v2: ConfigValue)
    requires Fits(k1, v1) && Fits(k2, v2) && k1 != k2
    ensures ChangeConfig(ChangeConfig(c, k1, v1), k2, v2) == ChangeConfig(ChangeConfig(c, k2, v2), k1, v1)
  {
  }

  /** The default options: all three flags on and a threshold of 0.8. */
  lemma DefaultConfigValues()
    ensures Field(DefaultConfig, CalculateDiversity) == Flag(true)
    ensures Field(DefaultConfig, GenerateCharts) == Flag(true)
    ensures Field(DefaultConfig, IncludeStatistics) == Flag(true)
    ensures Field(DefaultConfig, ConfidenceThreshold) == Tenths(8)
    ensures InRange(DefaultConfig)
  {
  }

  /** A value thrown by the upload call. */
  datatype Thrown = ErrorObject(message: string) | OtherValue

  /** How the upload call ended. */
  datatype UploadOutcome = Uploaded(response: UploadResponse) | Threw(thrown: Thrown)

  /** The message shown for a thrown value: an `Error`'s own message, or a
      fixed fallback for anything else. */
  function FailureMessage(t: Thrown): string {
    match t
    case ErrorObject(message) => message
    case OtherValue => UploadFailedMessage
  }

  function ProcessingRoute(jobId: string): string {
    "/processing/" + jobId
  }

  /** The arguments of one call to the backend's upload operation. */
  datatype UploadRequest = UploadRequest(file: DatasetFile, config: AnalysisConfig)

  class Page {
    var selectedFile: Option<DatasetFile>
    var isLoading: bool
    var error: string
    var analysisConfig: AnalysisConfig
    /** The route navigated to, if any. */
    var route: Option<string>
    /** Every call made to the backend's upload operation, in order. */
    var sent: seq<UploadRequest>
    /** The page's file picker, created with the page's ceiling; its
        `onFileSelect` is `HandleFileSelect`. */
    const picker: FileUploader.Uploader

    ghost predicate Valid()
      reads this
    {
      InRange(analysisConfig)
    }

    constructor ()
      ensures Valid()
      ensures selectedFile == None && !isLoading && error == ""
      ensures analysisConfig == DefaultConfig && route == None && sent == []
      ensures fresh(picker) && picker.Valid() && picker.maxSize == PickerMaxSize
      ensures picker.file == None && picker.reported == []
    {
      picker := new FileUploader.Uploader(Some(PickerMaxSize));
      selectedFile := None;
      isLoading := false;
      error := "";
      analysisConfig := DefaultConfig;
      route := None;
      sent := [];
    }

    /** The submit button is disabled while there is no file or an upload is
        in flight. */
    predicate ButtonDisabled()
      reads this
    {
      selectedFile.None? || isLoading
    }

    /** The picker reported a file: keep it and clear any error. */
    method HandleFileSelect(f: DatasetFile)
      modifies this`selectedFile, this`error
      ensures selectedFile == Some(f) && error == ""
    {
      selectedFile := Some(f);
      error := "";
    }

    method HandleConfigChange(key: ConfigKey, value: ConfigValue)
      requires Valid() && Fits(key, value)
      modifies this`analysisConfig
      ensures Valid()
      ensures analysisConfig == ChangeConfig(old(analysisConfig), key, value)
    {
      analysisConfig := ChangeConfig(analysisConfig, key, value);
    }

    /** The part of the submit handler before the upload call is awaited.
        Without a file it only sets the error; otherwise it raises the loading
        flag, clears the error and makes the call with the current file and
        options. */
    method StartUpload() returns (started: bool)
      modifies this`error, this`isLoading, this`sent
      ensures started <==> selectedFile.Some?
      ensures !started ==>
                error == NoFileMessage && isLoading == old(isLoading) && sent == old(sent)
      ensures started ==>
                isLoading && error == "" && ButtonDisabled() &&
                sent == old(sent) + [UploadRequest(selectedFile.value, analysisConfig)]
    {
      if selectedFile.None? {
        error := NoFileMessage;
        return false;
      }
      isLoading := true;
      error := "";
      sent := sent + [UploadRequest(selectedFile.value, analysisConfig)];
      started := true;
    }

    /** The part of the submit handler after the call returns or throws:
        success navigates to the job's processing page, failure shows the
        thrown message; either way loading ends. */
    method FinishUpload(outcome: UploadOutcome)
      modifies this`error, this`isLoading, this`route
      ensures !isLoading
      ensures ButtonDisabled() <==> selectedFile.None?
      ensures outcome.Uploaded? ==>
                route == Some(ProcessingRoute(outcome.response.jobId)) && error == old(error)
      ensures outcome.Threw? ==>
                route == old(route) && error == FailureMessage(outcome.thrown)
    {
      if outcome.Uploaded? {
        route := Some(ProcessingRoute(outcome.response.jobId));
      } else {
        error := FailureMessage(outcome.thrown);
      }
      isLoading := false;
    }

    /** The whole submit handler when nothing else happens while the call is
        in flight. */
    method HandleUpload(outcome: UploadOutcome)
      modifies this`error, this`isLoading, this`sent, this`route
      ensures old(selectedFile).None? ==>
                error == NoFileMessage && isLoading == old(isLoading) &&
                route == old(route) && sent == old(sent)
      ensures old(selectedFile).Some? ==> !isLoading
      ensures old(selectedFile).Some? && outcome.Uploaded? ==>
                route == Some(ProcessingRoute(outcome.response.jobId)) && error == "" &&
                sent == old(sent) + [UploadRequest(old(selectedFile).value, old(analysisConfig))]
      ensures old(selectedFile).Some? && outcome.Threw? ==>
                route == old(route) && error == FailureMessage(outcome.thrown) &&
                sent == old(sent) + [UploadRequest(old(selectedFile).value, old(analysisConfig))]
    {
      var started := StartUpload();
      if started {
        FinishUpload(outcome);
      }
    }
  }
}
