/**
 * The world outside the core, as the core sees it: server ids, opaque client
 * handles, and the outcomes of the calls that paramiko makes on the network.
 * Each outcome is an input of the operation that makes the call (an oracle);
 * nothing here opens a socket.
 */
module Remote {
  import opened Wrappers

  type ServerId = string

  /** An opaque paramiko SSHClient. */
  datatype ClientId = ClientId(handle: nat)

  /** The single authentication attempt a connect makes. */
  datatype Auth =
    | KeyFile(path: string)                   // RSAKey.from_private_key_file(path), then pkey=...
    | PasswordAuth(password: Option<string>)  // password=... (None is passed through as is)

  /** What loading the key (if any) and client.connect(..., timeout=10) do with one attempt. */
  datatype ConnectOutcome =
    | Connected(client: ClientId)
    | ConnectFailed(message: string)          // str() of the exception raised

  /**
   * What exec_command, recv_exit_status and reading both streams as UTF-8 do:
   * the remote exit status and the two decoded outputs, or the text of the exception raised.
   */
  datatype ExecOutcome =
    | Completed(exitCode: int, stdout: string, stderr: string)
    | ExecFailed(message: string)

  /** What client.close() does. */
  datatype CloseOutcome = Closed | CloseFailed(message: string)

  /** One call made on the network or on a client, in the order it is made. */
  datatype RemoteCall =
    | Dial(hostname: string, port: int, username: string, auth: Auth)
    | Exec(client: ClientId, command: string, timeout: int)
    | Close(client: ClientId)

  /** The outcome of a connection attempt, as a function of the attempt's credentials. */
  type Dialer = Auth -> ConnectOutcome

  /** The outcome of running a command on a client. */
  type Shell = (ClientId, string) -> ExecOutcome
}
