/** The messages of src/protocol.rs. */
module Protocol {
  import opened Bytes

  datatype Request = Request(
    whoami: bytes,
    dir: bytes,
    envs: map<bytes, bytes>,
    clearEnv: bool,
    exec: seq<bytes>,
    stdin: Option<bytes>,
    timeout: nat)

  /** The values of the `error` field. */
  datatype Failure = NotFound | Aborted | TimedOut | SpawnFailed

  datatype Response = Response(exit: int, output: bytes, error: Option<Failure>)

  datatype TranscriptEntry = TranscriptEntry(
    whoami: bytes,
    dir: bytes,
    envs: map<bytes, bytes>,
    clearEnv: bool,
    exec: seq<bytes>,
    timeout: nat,
    exit: int,
    output: bytes,
    error: Option<Failure>,
    time: Option<bytes>)
}
