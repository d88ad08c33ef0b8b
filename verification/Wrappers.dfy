// Result and option types shared by every component, and the library's error enum
// reduced to the variants the modelled components can produce.
module Wrappers {

  datatype Option<+T> = None | Some(value: T)

  /** A TCP port. */
  type Port = n: nat | n < 0x1_0000

  datatype Error =
    | SshConnection
    | RemoteCommandFailed(exitCode: nat)
    | InvalidRelayPath(path: string)
    | InvalidImageRef(reference: string)
    | ConfigParse
    | RegistryApi
    | RelayNotInstalled
    | RelayForeignInstall
    | RelayUpdateNotConfirmed
    | RelayHealthCheckFailed
    | RelayUnsupportedOs
    | DockerEngineNotInstalled
    | DockerComposeV1Detected

  datatype Result<+T> = Ok(value: T) | Err(error: Error) {
    predicate IsFailure() {
      Err?
    }

    function PropagateFailure<U>(): Result<U>
      requires Err?
    {
      Err(error)
    }

    function Extract(): T
      requires Ok?
    {
      value
    }
  }
}
