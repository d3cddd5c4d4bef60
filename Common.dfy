/** Values shared by every script of the transcriber: optional values, error
    results, the processing mode, and the outcome of running a child script. */
module Common {

  datatype Option<+T> = None | Some(value: T)

  datatype Result<+T, +E> = Ok(value: T) | Err(error: E)

  /** The `--mode` choice every script accepts, from most to least detailed. */
  datatype Mode = Transcribe | Summarize | Outline

  /** The command-line spelling of a mode. */
  function ModeName(m: Mode): (r: string)
    ensures |r| > 0
  {
    match m
    case Transcribe => "transcribe"
    case Summarize => "summarize"
    case Outline => "outline"
  }

  /** Position of a mode in the order transcribe, summarize, outline:
      a higher rank is a coarser artifact. */
  function Rank(m: Mode): (r: nat)
    ensures r < 3
  {
    match m
    case Transcribe => 0
    case Summarize => 1
    case Outline => 2
  }

  /** What `subprocess.run` reports for a child script: its exit code and
      captured streams, or the exception raised when it could not be started. */
  datatype ChildRun = Exited(code: int, stdout: string, stderr: string) | LaunchError(message: string)

  /** Python truthiness of an optional string: present and non-empty. */
  predicate Truthy(s: Option<string>)
  {
    s.Some? && s.value != ""
  }
}
