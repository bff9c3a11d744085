/** The records the client exchanges with the analysis backend
    (src/types.d.ts) and the browser's file object, as values. */
module Types {
  import opened Wrappers

  /** The status tag of a job. The backend reports one of these five strings. */
  datatype Status = Uploading | Processing | Analyzing | Completed | Error

  /** The string the backend uses for each status tag. */
  function StatusKey(s: Status): string {
    match s
    case Uploading => "uploading"
    case Processing => "processing"
    case Analyzing => "analyzing"
    case Completed => "completed"
    case Error => "error"
  }

  /** One answer of the status endpoint. `progress` is a percentage and
      `estimatedTime` a number of seconds, both JavaScript numbers that may be
      fractional; neither is checked by the client. */
  datatype ProcessingStatus = ProcessingStatus(
    jobId: string,
    status: Status,
    progress: real,
    currentStep: string,
    estimatedTime: Option<real>)

  /** The answer of the upload endpoint. The backend only ever reports
      `processing`, `completed` or `error` here; the client reads only `jobId`. */
  datatype UploadResponse = UploadResponse(jobId: string, status: Status, message: string)

  /** A file chosen by the user: its name and its size in bytes. The content
      is never read by the client. */
  datatype DatasetFile = DatasetFile(name: string, size: nat)
}
