/**
 * The wallet-rpc sidecar manager. It owns the `monero-wallet-rpc` child process, builds its
 * command line, maps process events to user-facing messages and signals, and makes JSON-RPC
 * calls to the sidecar on localhost. The process is abstracted to "running or not" plus a log
 * of what was asked of it; emitted signals are a trace. Whether the process starts or finishes
 * in time, and what the HTTP round trip returns, are parameters.
 */
module WalletRpcManager {
  import opened JsonRpc

  /** A signal emitted by the manager. */
  datatype Signal = WalletRpcStarted | WalletRpcStopped | Error(message: string)

  /** A request made of the child process. */
  datatype ProcessAction = Start(program: string, arguments: seq<string>) | Terminate | WaitForFinished(msecs: int) | Kill

  /** `QProcess::ProcessError`. */
  datatype ProcessError = FailedToStart | Crashed | Timedout | WriteError | ReadError | UnknownError

  /** `QProcess::ExitStatus`. */
  datatype ExitStatus = NormalExit | CrashExit

  /**
   * What `waitForStarted()` finds: the process runs; it failed to start (Qt then reports
   * `FailedToStart` to the connected error handler); or the wait timed out (no error is reported
   * and the process is not running).
   */
  datatype StartOutcome = Started | StartFailed | StartTimedOut

  /**
   * What `waitForFinished(5000)` finds after `terminate()`: the process finished within the wait
   * (Qt then reports it to the connected handlers), or it is still running.
   */
  datatype StopOutcome = FinishedInTime(exitCode: int, status: ExitStatus) | StillRunning

  // ---------------------------------------------------------------------------
  // Network name

  /** `QChar::toLower` restricted to ASCII letters; other characters are unchanged. */
  function LowerChar(c: char): (r: char)
    ensures 'A' <= c <= 'Z' ==> r as int == c as int + 32
    ensures !('A' <= c <= 'Z') ==> r == c
  {
    if 'A' <= c <= 'Z' then (c as int + 32) as char else c
  }

  /** `QString::toLower`, ASCII only. */
  function ToLower(s: string): (r: string)
    ensures |r| == |s|
    ensures forall i :: 0 <= i < |s| ==> r[i] == LowerChar(s[i])
  {
    seq(|s|, i requires 0 <= i < |s| => LowerChar(s[i]))
  }

  /** Lower-casing twice is lower-casing once, so a stored network name is already normalised. */
  lemma ToLowerIdempotent(s: string)
    ensures ToLower(ToLower(s)) == ToLower(s)
  {
  }

  /** Any capitalisation of "testnet" or "stagenet" names that network after normalisation. */
  lemma NetworkNamesNormalise()
    ensures ToLower("TestNet") == "testnet" && ToLower("TESTNET") == "testnet"
    ensures ToLower("Stagenet") == "stagenet" && ToLower("MainNet") == "mainnet"
  {
  }

  // ---------------------------------------------------------------------------
  // Command line

  const BindPortFlag: string := "--rpc-bind-port"
  const LoginFlag: string := "--rpc-login"
  const Login: string := "wallet:wallet"
  const WalletDirFlag: string := "--wallet-dir"
  const WalletDir: string := "/tmp"

  /**
   * The wallet-rpc arguments: bind port, fixed login, wallet directory `/tmp`, then one
   * network flag for testnet or stagenet and none for any other network.
   */
  function WalletRpcArguments(rpcPort: int, network: string): (args: seq<string>)
    ensures |args| == 6 || |args| == 7
    ensures args[..6] == [BindPortFlag, IntToString(rpcPort), LoginFlag, Login, WalletDirFlag, WalletDir]
    ensures |args| == 7 <==> network == "testnet" || network == "stagenet"
    ensures |args| == 7 ==> args[6] == (if network == "testnet" then "--testnet" else "--stagenet")
  {
    var base := [BindPortFlag, IntToString(rpcPort), LoginFlag, Login, WalletDirFlag, WalletDir];
    if network == "testnet" then base + ["--testnet"]
    else if network == "stagenet" then base + ["--stagenet"]
    else base
  }

  /** The port argument reads back as the configured port. */
  lemma PortArgumentRoundTrip(rpcPort: int, network: string)
    requires InInt32(rpcPort)
    ensures QtToInt(WalletRpcArguments(rpcPort, network)[1]) == rpcPort
  {
    var args := WalletRpcArguments(rpcPort, network);
    assert args[1] == args[..6][1];
    QtToIntOfNumber(rpcPort);
  }

  // ---------------------------------------------------------------------------
  // Process events

  /** The message for a process error: fixed texts for a failed start and a crash, a generic one otherwise. */
  function ProcessErrorMessage(e: ProcessError): (m: string)
    ensures e == FailedToStart ==> m == "The wallet-rpc process failed to start."
    ensures e == Crashed ==> m == "The wallet-rpc process crashed."
    ensures e != FailedToStart && e != Crashed ==> m == "An error occurred with the wallet-rpc process."
  {
    match e
    case FailedToStart => "The wallet-rpc process failed to start."
    case Crashed => "The wallet-rpc process crashed."
    case _ => "An error occurred with the wallet-rpc process."
  }

  function ExitCodeMessage(exitCode: int): string
  {
    "The wallet-rpc process exited with code " + IntToString(exitCode) + "."
  }

  /**
   * What the finished handler emits: the crash message for a crash exit, the exit-code message
   * for a normal exit with a non-zero code, nothing for a clean exit; then always `walletRPCStopped`.
   */
  function FinishedSignals(exitCode: int, status: ExitStatus): (r: seq<Signal>)
    ensures |r| >= 1 && r[|r| - 1] == WalletRpcStopped
    ensures |r| == 2 <==> status == CrashExit || exitCode != 0
    ensures |r| <= 2
    ensures status == CrashExit ==> r[0] == Error(ProcessErrorMessage(Crashed))
    ensures status == NormalExit && exitCode != 0 ==> r[0] == Error(ExitCodeMessage(exitCode))
  {
    if status == CrashExit then [Error("The wallet-rpc process crashed."), WalletRpcStopped]
    else if exitCode != 0 then [Error(ExitCodeMessage(exitCode)), WalletRpcStopped]
    else [WalletRpcStopped]
  }

  /**
   * What the two connected handlers emit when the process dies: Qt reports a crash exit first
   * to the error handler (as `Crashed`) and then to the finished handler; any other exit only
   * to the finished handler.
   */
  function DiedSignals(exitCode: int, status: ExitStatus): (r: seq<Signal>)
    ensures |r| == (if status == CrashExit then 3 else if exitCode != 0 then 2 else 1)
    ensures r[|r| - 1] == WalletRpcStopped
    ensures forall i :: 0 <= i < |r| - 1 ==> r[i].Error?
    ensures status == CrashExit ==> r[0] == r[1] == Error(ProcessErrorMessage(Crashed))
  {
    (if status == CrashExit then [Error(ProcessErrorMessage(Crashed))] else []) + FinishedSignals(exitCode, status)
  }

  /** What `startWalletRPC` emits when the process is not running yet. */
  function StartSignals(outcome: StartOutcome): (r: seq<Signal>)
    ensures outcome == Started <==> r == [WalletRpcStarted]
    ensures outcome != Started ==> r != [] && r[|r| - 1] == Error("Failed to start wallet-rpc process")
    ensures outcome == StartFailed ==> |r| == 2 && r[0] == Error(ProcessErrorMessage(FailedToStart))
    ensures outcome == StartTimedOut ==> |r| == 1
  {
    match outcome
    case Started => [WalletRpcStarted]
    case StartFailed => [Error(ProcessErrorMessage(FailedToStart)), Error("Failed to start wallet-rpc process")]
    case StartTimedOut => [Error("Failed to start wallet-rpc process")]
  }

  /**
   * A stop whose process finishes within the wait emits `walletRPCStopped` twice: once from the
   * finished handler and once from `stopWalletRPC` itself; everything before them is an error.
   */
  lemma StopInTimeEmitsStoppedTwice(exitCode: int, status: ExitStatus)
    ensures var r := DiedSignals(exitCode, status) + [WalletRpcStopped];
            r[|r| - 2] == r[|r| - 1] == WalletRpcStopped
            && forall i :: 0 <= i < |r| - 2 ==> r[i].Error?
    ensures DiedSignals(0, NormalExit) + [WalletRpcStopped] == [WalletRpcStopped, WalletRpcStopped]
  {
    var d := DiedSignals(exitCode, status);
    var r := d + [WalletRpcStopped];
    assert r[|r| - 2] == d[|d| - 1];
    forall i | 0 <= i < |r| - 2 ensures r[i].Error? {
      assert r[i] == d[i];
    }
  }

  /** The three process-error messages are pairwise different. */
  lemma ProcessErrorMessagesDistinct(e1: ProcessError, e2: ProcessError)
    requires ProcessErrorMessage(e1) == ProcessErrorMessage(e2)
    ensures e1 == FailedToStart <==> e2 == FailedToStart
    ensures e1 == Crashed <==> e2 == Crashed
  {
    var m1, m2 := ProcessErrorMessage(e1), ProcessErrorMessage(e2);
    assert m1[4] == m2[4] && m1[|m1| - 3] == m2[|m2| - 3];
  }

  /** Different non-zero exit codes give different messages, so the code can be read from the message. */
  lemma {:induction false} ExitCodeMessageInjective(a: int, b: int)
    requires ExitCodeMessage(a) == ExitCodeMessage(b)
    ensures a == b
  {
    var prefix := "The wallet-rpc process exited with code ";
    var ma, mb := ExitCodeMessage(a), ExitCodeMessage(b);
    assert |IntToString(a)| == |IntToString(b)|;
    assert IntToString(a) == ma[|prefix|..|ma| - 1];
    assert IntToString(b) == mb[|prefix|..|mb| - 1];
    IntToStringInjective(a, b);
  }

  /** A crash reported by the error handler and one reported by the finished handler read the same. */
  lemma CrashReportedAlike(exitCode: int)
    ensures FinishedSignals(exitCode, CrashExit)[0] == Error(ProcessErrorMessage(Crashed))
  {
  }

  // ---------------------------------------------------------------------------
  // The manager

  class Manager {
    const walletRpcPath: string
    /** Lower-cased at construction. */
    const network: string
    const rpcPort: int
    /** `m_walletRPCProcess->state() == QProcess::Running`. */
    var running: bool
    /** Every signal emitted so far, in order. */
    var signals: seq<Signal>
    /** Every request made of the child process so far, in order. */
    var processLog: seq<ProcessAction>

    constructor (walletRpcPath: string := "", network: string := "mainnet", rpcPort: int := 18082)
      ensures this.walletRpcPath == walletRpcPath && this.network == ToLower(network) && this.rpcPort == rpcPort
      ensures !running && signals == [] && processLog == []
    {
      this.walletRpcPath := walletRpcPath;
      this.network := ToLower(network);
      this.rpcPort := rpcPort;
      running := false;
      signals := [];
      processLog := [];
    }

    predicate IsRunning()
      reads this
    {
      running
    }

    /** The wallet-rpc command line, assembled one argument at a time. */
    method Arguments() returns (args: seq<string>)
      ensures args == WalletRpcArguments(rpcPort, network)
    {
      args := [];
      args := args + [BindPortFlag] + [IntToString(rpcPort)];
      args := args + [LoginFlag] + [Login];
      args := args + [WalletDirFlag] + [WalletDir];
      if network == "testnet" {
        args := args + ["--testnet"];
      } else if network == "stagenet" {
        args := args + ["--stagenet"];
      }
    }

    /**
     * A running sidecar is left alone. Otherwise the process is started with the wallet-rpc
     * command line; `outcome` is what waiting for it to start finds. A failed start reaches the
     * connected error handler before `startWalletRPC` emits its own error.
     */
    method StartWalletRpc(outcome: StartOutcome) returns (ok: bool)
      modifies this
      ensures old(running) ==> ok && running && signals == old(signals) && processLog == old(processLog)
      ensures !old(running) ==>
                processLog == old(processLog) + [Start(walletRpcPath, WalletRpcArguments(rpcPort, network))]
                && ok == (outcome == Started) && running == ok
                && signals == old(signals) + StartSignals(outcome)
    {
      if IsRunning() {
        return true;
      }
      var args := Arguments();
      processLog := processLog + [Start(walletRpcPath, args)];
      if outcome == StartFailed {
        HandleProcessError(FailedToStart);
      }
      if outcome != Started {
        signals := signals + [Error("Failed to start wallet-rpc process")];
        return false;
      }
      running := true;
      signals := signals + [WalletRpcStarted];
      ok := true;
    }

    /**
     * A stopped sidecar is left alone. Otherwise the process is asked to terminate and given
     * 5000 ms to finish. If it finishes, the connected handlers report it within the wait;
     * if not, it is killed and stays running until its death is delivered (`ProcessDied`).
     * Either way `stopWalletRPC` then emits `walletRPCStopped` itself.
     */
    method StopWalletRpc(outcome: StopOutcome)
      modifies this
      ensures !old(running) ==> !running && signals == old(signals) && processLog == old(processLog)
      ensures old(running) && outcome.FinishedInTime? ==>
                !running
                && signals == old(signals) + DiedSignals(outcome.exitCode, outcome.status) + [WalletRpcStopped]
                && processLog == old(processLog) + [Terminate, WaitForFinished(5000)]
      ensures old(running) && outcome.StillRunning? ==>
                running && signals == old(signals) + [WalletRpcStopped]
                && processLog == old(processLog) + [Terminate, WaitForFinished(5000), Kill]
    {
      if IsRunning() {
        processLog := processLog + [Terminate, WaitForFinished(5000)];
        if outcome.FinishedInTime? {
          ProcessDied(outcome.exitCode, outcome.status);
        } else {
          processLog := processLog + [Kill];
        }
        signals := signals + [WalletRpcStopped];
      }
    }

    /**
     * The process has died (it crashed, was killed, or exited): a crash exit reaches the error
     * handler as `Crashed`, then every exit reaches the finished handler.
     */
    method ProcessDied(exitCode: int, status: ExitStatus)
      modifies this
      ensures signals == old(signals) + DiedSignals(exitCode, status)
      ensures !running && processLog == old(processLog)
    {
      if status == CrashExit {
        HandleProcessError(Crashed);
      }
      HandleProcessFinished(exitCode, status);
    }

    function RpcUrl(): string
      reads this
    {
      "http://localhost:" + IntToString(rpcPort) + "/json_rpc"
    }

    /**
     * Posts the envelope to the sidecar and returns the whole parsed reply; on a network error
     * it emits "Network error: <reason>" and returns the empty object.
     */
    method MakeRpcCall(methodName: string, params: map<string, Json>, reply: Reply)
      returns (sent: Post, response: map<string, Json>)
      modifies this
      ensures sent.url == RpcUrl() && sent.contentType == JsonContentType
      ensures ParseEnvelope(sent.body) == Some((methodName, params))
      ensures running == old(running) && processLog == old(processLog)
      ensures reply.NetworkError? ==>
                response == map[] && signals == old(signals) + [Error("Network error: " + reply.errorString)]
      ensures reply.Received? ==> response == ToObject(reply.document) && signals == old(signals)
    {
      var request := map[];
      request := request["jsonrpc" := JStr("2.0")];
      request := request["id" := JStr("0")];
      request := request["method" := JStr(methodName)];
      request := request["params" := JObj(params)];
      assert request == Envelope(methodName, params).fields;
      EnvelopeRoundTrip(methodName, params);
      sent := Post(RpcUrl(), JsonContentType, JObj(request));
      if reply.Received? {
        response := ToObject(reply.document);
      } else {
        signals := signals + [Error("Network error: " + reply.errorString)];
        response := map[];
      }
    }

    /** Emits exactly one error signal carrying the message for the process error. */
    method HandleProcessError(e: ProcessError)
      modifies this
      ensures signals == old(signals) + [Error(ProcessErrorMessage(e))]
      ensures running == old(running) && processLog == old(processLog)
    {
      var message: string;
      match e {
        case FailedToStart => message := "The wallet-rpc process failed to start.";
        case Crashed => message := "The wallet-rpc process crashed.";
        case _ => message := "An error occurred with the wallet-rpc process.";
      }
      signals := signals + [Error(message)];
    }

    /**
     * The process has finished (so it is no longer running): report a crash or a non-zero exit
     * code, then always emit `walletRPCStopped`.
     */
    method HandleProcessFinished(exitCode: int, status: ExitStatus)
      modifies this
      ensures signals == old(signals) + FinishedSignals(exitCode, status)
      ensures !running && processLog == old(processLog)
    {
      running := false;
      if status == CrashExit {
        signals := signals + [Error("The wallet-rpc process crashed.")];
      } else if exitCode != 0 {
        signals := signals + [Error(ExitCodeMessage(exitCode))];
      }
      signals := signals + [WalletRpcStopped];
    }
  }
}
