/**
 * The SSH client of app/network/ssh_client.py: the command allow-list, the filter
 * validation that builds the remote command line, and the connect / execute / close
 * life cycle with its translation of low-level failures into the project's errors.
 * The network (the TCP probe, the paramiko handshake, the remote command, the close)
 * is not modelled: each call's outcome is a parameter.
 */
module SshClient {
  import opened Options
  import opened Exceptions
  import opened PyText
  import Constants

  /** The allow-list: the only commands that can ever be sent. */
  datatype CommandType = Wstalist | SystemStatus | Uptime {
    function Value(): string {
      match this
      case Wstalist => "wstalist"
      case SystemStatus => "mca-status"
      case Uptime => "uptime"
    }
  }

  predicate IsFilterChar(c: char) {
    ('a' <= c <= 'z') || ('A' <= c <= 'Z') || ('0' <= c <= '9') || c == '_' || c == '-'
  }

  /**
   * `re.match(r"^[a-zA-Z0-9_\-]+$", f)`: one or more allowed characters; since `$` also
   * matches just before a final newline, one trailing "\n" is let through as well.
   */
  predicate FilterAccepted(f: string) {
    var body := if |f| > 0 && f[|f| - 1] == '\n' then f[..|f| - 1] else f;
    |body| > 0 && forall i :: 0 <= i < |body| ==> IsFilterChar(body[i])
  }

  /** An accepted filter holds no quote, no pipe and no space, so it cannot leave its grep argument. */
  lemma AcceptedFilterIsInert(f: string)
    requires FilterAccepted(f)
    ensures |f| > 0
    ensures '\'' !in f && '"' !in f && '|' !in f && ' ' !in f && ';' !in f
  {
    var body := if |f| > 0 && f[|f| - 1] == '\n' then f[..|f| - 1] else f;
    assert f == body || f == body + ['\n'];
    forall c | c in f
      ensures c != '\'' && c != '"' && c != '|' && c != ' ' && c != ';'
    {
      var i :| 0 <= i < |f| && f[i] == c;
      if i < |body| {
        assert IsFilterChar(body[i]);
      }
    }
  }

  /** The shell pipeline stage for one validated filter. */
  function GrepStage(f: string): string {
    "grep -c '\"" + f + "'"
  }

  /** The first filter that fails validation, if any. */
  function FirstRejected(fs: seq<string>): (r: Option<nat>)
    ensures r.Some? <==> exists i :: 0 <= i < |fs| && !FilterAccepted(fs[i])
    ensures r.Some? ==> r.value < |fs| && !FilterAccepted(fs[r.value])
    ensures r.Some? ==> forall j :: 0 <= j < r.value ==> FilterAccepted(fs[j])
  {
    if fs == [] then None
    else if !FilterAccepted(fs[0]) then Some(0)
    else match FirstRejected(fs[1..])
      case None => None
      case Some(k) => Some(k + 1)
  }

  function GrepStages(fs: seq<string>): (r: seq<string>)
    ensures |r| == |fs|
  {
    seq(|fs|, i requires 0 <= i < |fs| => GrepStage(fs[i]))
  }

  /** `_build_safe_command`: the command text for an allowed command and its filters, or the rejection. */
  function SafeCommand(cmd: CommandType, filters: Option<seq<string>>): (r: Call<string>)
    ensures r.Raises? <==> filters.Some? && exists i :: 0 <= i < |filters.value| && !FilterAccepted(filters.value[i])
    ensures r.Raises? ==> r.error.cls == ValueError
    ensures r.Returns? && (filters.None? || filters.value == []) ==> r.value == cmd.Value()
  {
    if filters.None? || filters.value == [] then Returns(cmd.Value())
    else
      var fs := filters.value;
      match FirstRejected(fs)
      case Some(k) => Raises(Error(ValueError, "Filtro malicioso detectado: " + Repr(fs[k])))
      case None => Returns(cmd.Value() + " | " + Join(GrepStages(fs), " | "))
  }

  /** The loop of `_build_safe_command`: validate each filter in turn, collecting its grep stage. */
  method BuildSafeCommand(cmd: CommandType, filters: Option<seq<string>>) returns (r: Call<string>)
    ensures r == SafeCommand(cmd, filters)
  {
    var base := cmd.Value();
    if filters.None? || filters.value == [] {
      return Returns(base);
    }
    var fs := filters.value;
    var validated: seq<string> := [];
    var i := 0;
    while i < |fs|
      invariant 0 <= i <= |fs|
      invariant validated == GrepStages(fs[..i])
      invariant forall j :: 0 <= j < i ==> FilterAccepted(fs[j])
    {
      if !FilterAccepted(fs[i]) {
        assert FirstRejected(fs) == Some(i) by { FirstRejectedAt(fs, i); }
        return Raises(Error(ValueError, "Filtro malicioso detectado: " + Repr(fs[i])));
      }
      validated := validated + [GrepStage(fs[i])];
      i := i + 1;
    }
    assert fs[..i] == fs;
    if validated != [] {
      r := Returns(base + " | " + Join(validated, " | "));
    } else {
      r := Returns(base);
    }
  }

  lemma FirstRejectedAt(fs: seq<string>, i: nat)
    requires i < |fs| && !FilterAccepted(fs[i])
    requires forall j :: 0 <= j < i ==> FilterAccepted(fs[j])
    ensures FirstRejected(fs) == Some(i)
  {
  }

  // ---- Reading a command back: the filters cannot change the shape of the pipeline ----

  /** The text that opens every grep stage in the built command. */
  const StagePrefix: string := " | grep -c '\""

  /** Parses a sequence of grep stages, each an argument ended by the first quote after it. */
  function ParseStages(s: string): Option<seq<string>>
    decreases |s|
  {
    if s == [] then Some([])
    else if |s| >= |StagePrefix| && s[..|StagePrefix|] == StagePrefix then
      var rest := s[|StagePrefix|..];
      var f := TakeBefore(rest, '\'');
      if |f| == |rest| then None
      else match ParseStages(rest[|f| + 1..])
        case None => None
        case Some(more) => Some([f] + more)
    else None
  }

  predicate StartsWith(s: string, p: string) {
    |p| <= |s| && s[..|p|] == p
  }

  /** Parses a command line as one allowed command followed by grep stages. */
  function ParseCommand(s: string): Option<(CommandType, seq<string>)> {
    if StartsWith(s, Wstalist.Value()) then ParseWith(Wstalist, s[|Wstalist.Value()|..])
    else if StartsWith(s, SystemStatus.Value()) then ParseWith(SystemStatus, s[|SystemStatus.Value()|..])
    else if StartsWith(s, Uptime.Value()) then ParseWith(Uptime, s[|Uptime.Value()|..])
    else None
  }

  function ParseWith(cmd: CommandType, rest: string): Option<(CommandType, seq<string>)> {
    match ParseStages(rest)
    case None => None
    case Some(fs) => Some((cmd, fs))
  }

  /** The grep stages as one text, each stage with its leading separator. */
  function Stages(fs: seq<string>): string {
    if fs == [] then "" else StagePrefix + fs[0] + "'" + Stages(fs[1..])
  }

  lemma {:induction false} JoinedStages(fs: seq<string>)
    requires fs != []
    ensures " | " + Join(GrepStages(fs), " | ") == Stages(fs)
    decreases |fs|
  {
    var first := " | " + GrepStage(fs[0]);
    StageText(fs[0]);
    GrepStagesCons(fs);
    if |fs| == 1 {
      assert GrepStages(fs) == [GrepStage(fs[0])];
      assert Stages(fs) == first + Stages(fs[1..]);
    } else {
      var tail := Join(GrepStages(fs[1..]), " | ");
      JoinedStages(fs[1..]);
      JoinCons(GrepStage(fs[0]), GrepStages(fs[1..]), " | ");
      calc {
        " | " + Join(GrepStages(fs), " | ");
        " | " + (GrepStage(fs[0]) + " | " + tail);
        { ConcatAssoc(GrepStage(fs[0]), " | ", tail); ConcatAssoc(" | ", GrepStage(fs[0]), " | " + tail); }
        first + (" | " + tail);
        first + Stages(fs[1..]);
      }
    }
  }

  /** One grep stage behind its separator is the stage prefix, the filter and the closing quote. */
  lemma StageText(f: string)
    ensures " | " + GrepStage(f) == StagePrefix + f + "'"
    ensures Stages([f]) == StagePrefix + f + "'"
  {
  }

  lemma GrepStagesCons(fs: seq<string>)
    requires fs != []
    ensures GrepStages(fs) == [GrepStage(fs[0])] + GrepStages(fs[1..])
  {
  }

  lemma {:induction false} ParseStagesOfStages(fs: seq<string>)
    requires forall i :: 0 <= i < |fs| ==> '\'' !in fs[i]
    ensures ParseStages(Stages(fs)) == Some(fs)
    decreases |fs|
  {
    if fs != [] {
      StagesCons(fs);
      assert forall i | 0 <= i < |fs[1..]| :: fs[1..][i] == fs[i + 1];
      ParseStagesOfStages(fs[1..]);
      ParseOneStage(fs[0], Stages(fs[1..]));
      assert [fs[0]] + fs[1..] == fs;
    }
  }

  lemma StagesCons(fs: seq<string>)
    requires fs != []
    ensures Stages(fs) == StagePrefix + (fs[0] + ['\''] + Stages(fs[1..]))
  {
    var m := Stages(fs[1..]);
    assert Stages(fs) == StagePrefix + fs[0] + ['\''] + m;
    ConcatAssoc(StagePrefix + fs[0], ['\''], m);
    ConcatAssoc(StagePrefix, fs[0], ['\''] + m);
    ConcatAssoc(fs[0], ['\''], m);
  }

  /** A stage whose filter has no quote is read off whole, and parsing goes on after its closing quote. */
  lemma ParseOneStage(f: string, more: string)
    requires '\'' !in f
    ensures ParseStages(StagePrefix + (f + ['\''] + more))
         == if ParseStages(more).Some? then Some([f] + ParseStages(more).value) else None
  {
    var rest := f + ['\''] + more;
    ConcatSplit(StagePrefix, rest);
    TakeBeforeOfPrefix(f, more, '\'');
    ConcatSplit(f + ['\''], more);
  }

  /** Splitting a concatenation where it was joined gives back its parts. */
  lemma ConcatSplit(p: string, t: string)
    ensures (p + t)[..|p|] == p && (p + t)[|p|..] == t
  {
  }

  /** A command line starting with an allowed command is read as that command and what follows. */
  lemma ParseCommandOf(cmd: CommandType, tail: string)
    ensures ParseCommand(cmd.Value() + tail) == ParseWith(cmd, tail)
  {
    var v := cmd.Value();
    var s := v + tail;
    ConcatSplit(v, tail);
    assert StartsWith(s, v);
    if cmd != Wstalist {
      FirstCharDiffers(s, Wstalist.Value());
    }
    if cmd == Uptime {
      FirstCharDiffers(s, SystemStatus.Value());
    }
  }

  lemma FirstCharDiffers(s: string, p: string)
    requires s != [] && p != [] && s[0] != p[0]
    ensures !StartsWith(s, p)
  {
    if |p| <= |s| {
      assert s[..|p|][0] == s[0];
    }
  }

  /** The text a successful build appends to the command: nothing, or one stage per filter. */
  lemma SafeCommandTail(cmd: CommandType, filters: Option<seq<string>>)
    requires SafeCommand(cmd, filters).Returns?
    ensures var fs := if filters.None? then [] else filters.value;
      SafeCommand(cmd, filters).value == cmd.Value() + Stages(fs)
  {
    if filters.Some? && filters.value != [] {
      JoinedStages(filters.value);
    }
  }

  /**
   * Injection resistance: whatever accepted filters are given, the command sent reads back
   * as exactly the chosen allowed command followed by one grep stage per filter, in order.
   */
  lemma SafeCommandReadsBack(cmd: CommandType, filters: Option<seq<string>>)
    requires SafeCommand(cmd, filters).Returns?
    ensures ParseCommand(SafeCommand(cmd, filters).value)
         == Some((cmd, if filters.None? then [] else filters.value))
  {
    var fs := if filters.None? then [] else filters.value;
    forall i | 0 <= i < |fs|
      ensures '\'' !in fs[i]
    {
      AcceptedFilterIsInert(fs[i]);
    }
    SafeCommandTail(cmd, filters);
    ParseStagesOfStages(fs);
    ParseCommandOf(cmd, Stages(fs));
  }

  // ---- The client ----

  datatype HostKeyPolicy = RejectPolicy | AutoAddPolicy

  /** The part of a paramiko client the model follows: its missing-host-key policy and whether the system's known hosts were loaded. */
  datatype Paramiko = Paramiko(policy: HostKeyPolicy, systemHostKeysLoaded: bool)

  /** The text of the probe failure raised inside `connect`. */
  function ProbeFailure(host: string, port: int): Error {
    Error(DeviceOfflineError, "Host " + host + ":" + IntToString(port) + " inacessível")
  }

  /** The handler chain of `connect`: every failure becomes one of the project's three network errors. */
  function ConnectFailure(e: Error, host: string, port: int): (r: Error)
    ensures r.cls == DeviceOfflineError || r.cls == AuthenticationError || r.cls == SSHExecutionError
    ensures r.cls == DeviceOfflineError <==> IsA(e.cls, OSError)
    ensures r.cls == AuthenticationError <==> IsA(e.cls, AuthenticationException)
  {
    if IsA(e.cls, SocketTimeout) then
      Error(DeviceOfflineError, "Timeout ao conectar em " + host + ":" + IntToString(port))
    else if IsA(e.cls, GaiError) || IsA(e.cls, ConnectionRefusedError) || IsA(e.cls, OSError) then
      Error(DeviceOfflineError, "Host " + host + " inacessível: " + e.msg)
    else if IsA(e.cls, AuthenticationException) then
      Error(AuthenticationError, "Falha na autenticação em " + host + ": " + e.msg)
    else if IsA(e.cls, SSHException) then
      Error(SSHExecutionError, "Erro SSH em " + host + ": " + e.msg)
    else
      Error(SSHExecutionError, "Erro desconhecido ao conectar em " + host + ": " + e.msg)
  }

  /**
   * As written, the probe's own DeviceOfflineError is raised inside the `try` and reaches the
   * catch-all handler, so an unreachable host surfaces as an SSHExecutionError.
   */
  lemma ProbeFailureMisclassified(host: string, port: int)
    ensures ProbeFailure(host, port).cls == DeviceOfflineError
    ensures ConnectFailure(ProbeFailure(host, port), host, port)
         == Error(SSHExecutionError, "Erro desconhecido ao conectar em " + host + ": " + ProbeFailure(host, port).msg)
  {
    var e := ProbeFailure(host, port);
    assert !IsA(e.cls, SocketTimeout) && !IsA(e.cls, GaiError) && !IsA(e.cls, ConnectionRefusedError);
    assert !IsA(e.cls, OSError) && !IsA(e.cls, AuthenticationException) && !IsA(e.cls, SSHException);
  }

  /** The handler chain with the project's own network errors re-raised unchanged, as the docstring of `connect` promises. */
  function ConnectFailureIntended(e: Error, host: string, port: int): (r: Error)
    ensures IsA(e.cls, NetworkError) ==> r == e
    ensures !IsA(e.cls, NetworkError) ==> r == ConnectFailure(e, host, port)
  {
    if IsA(e.cls, NetworkError) then e else ConnectFailure(e, host, port)
  }

  /** With the intended chain an unreachable host is reported as offline, with the probe's message. */
  lemma ProbeFailureIntended(host: string, port: int)
    ensures ConnectFailureIntended(ProbeFailure(host, port), host, port).cls == DeviceOfflineError
    ensures ConnectFailureIntended(ProbeFailure(host, port), host, port).msg == "Host " + host + ":" + IntToString(port) + " inacessível"
  {
  }

  /** The outcome of the remote command as paramiko reports it. */
  datatype ExecOutcome =
    | Completed(exitStatus: int, stdout: string, stderr: string)
    | Failed(error: Error)

  /** The handler chain of `execute_safe_command`. */
  function ExecFailure(e: Error, host: string): (r: Error)
    ensures r.cls == SSHExecutionError
    ensures IsA(e.cls, SSHExecutionError) ==> r == e
  {
    if IsA(e.cls, SSHExecutionError) then e
    else if IsA(e.cls, SSHException) then Error(SSHExecutionError, "Erro de protocolo SSH em " + host + ": " + e.msg)
    else Error(SSHExecutionError, "Erro ao executar comando em " + host + ": " + e.msg)
  }

  /** What a failed command reports: its trimmed stderr, or its exit code when stderr is blank. */
  function ExitFailureDetail(status: int, stderr: string): (d: string)
    ensures d != []
    ensures Strip(stderr) != "" ==> d == Strip(stderr)
    ensures Strip(stderr) == "" ==> d == "Comando falhou com código " + IntToString(status)
  {
    var error := Strip(stderr);
    if error != "" then error else "Comando falhou com código " + IntToString(status)
  }

  /** The body of `execute_safe_command` once the client is connected. */
  function CommandResult(host: string, built: Call<string>, exec: ExecOutcome): (r: Call<string>)
    ensures r.Raises? ==> r.error.cls == SSHExecutionError
    ensures r.Returns? <==> built.Returns? && exec.Completed? && exec.exitStatus == 0
    ensures r.Returns? ==> r.value == Strip(exec.stdout)
    ensures built.Returns? && exec.Completed? && exec.exitStatus != 0 ==>
      r.error.msg == "Comando falhou: " + ExitFailureDetail(exec.exitStatus, exec.stderr)
  {
    if built.Raises? then Raises(ExecFailure(built.error, host))
    else match exec
      case Failed(e) => Raises(ExecFailure(e, host))
      case Completed(status, out, err) =>
        if status != 0 then
          Raises(Error(SSHExecutionError, "Comando falhou: " + ExitFailureDetail(status, err)))
        else Returns(Strip(out))
  }

  /** The output handed back carries no surrounding whitespace. */
  lemma CommandOutputTrimmed(host: string, built: Call<string>, exec: ExecOutcome)
    requires CommandResult(host, built, exec).Returns?
    ensures Strip(CommandResult(host, built, exec).value) == CommandResult(host, built, exec).value
  {
    StripProperties(exec.stdout);
  }

  const NotConnected: Error := Error(ConnectionError, "Cliente SSH não está conectado. Use 'with' statement.")

  class SSHClient {
    const host: string
    const user: string
    const password: string
    const port: int
    const timeout: int
    /** The paramiko client, once `connect` has created it. */
    var client: Option<Paramiko>
    var connected: bool

    constructor (host: string, user: string, password: string, port: int := 22, timeout: int := Constants.SSH_TIMEOUT)
      ensures this.host == host && this.user == user && this.password == password
      ensures this.port == port && this.timeout == timeout
      ensures client == None && !connected
    {
      this.host := host;
      this.user := user;
      this.password := password;
      this.port := port;
      this.timeout := timeout;
      client := None;
      connected := false;
    }

    /** `execute_safe_command` runs only when both flags agree that a session is open. */
    predicate Usable()
      reads this
    {
      connected && client.Some?
    }

    /**
     * `_configure_host_key_policy`: a known-hosts file turns on strict checking and loads
     * the system keys (whose loading can fail); without one, unknown host keys are accepted.
     */
    method ConfigureHostKeyPolicy(knownHostsExists: bool, loadKeys: Call<()>) returns (r: Call<()>)
      requires client.Some?
      modifies this
      ensures connected == old(connected)
      ensures knownHostsExists ==> r == loadKeys
      ensures knownHostsExists ==> client == Some(Paramiko(RejectPolicy, old(client).value.systemHostKeysLoaded || loadKeys.Returns?))
      ensures !knownHostsExists ==> client == Some(Paramiko(AutoAddPolicy, old(client).value.systemHostKeysLoaded)) && r == Returns(())
    {
      if knownHostsExists {
        client := Some(client.value.(policy := RejectPolicy));
        if loadKeys.Returns? {
          client := Some(client.value.(systemHostKeysLoaded := true));
        }
        r := loadKeys;
      } else {
        client := Some(client.value.(policy := AutoAddPolicy));
        r := Returns(());
      }
    }

    /**
     * `connect` as written: probe the port, create the paramiko client, set its host-key policy
     * and shake hands. The probe's DeviceOfflineError is raised inside the `try`, so it reaches
     * the final `except Exception` and leaves as SSHExecutionError (see
     * `ProbeFailureMisclassified`); paramiko's failures go through `ConnectFailure`.
     */
    method Connect(portOpen: bool, knownHostsExists: bool, loadKeys: Call<()>, handshake: Call<()>) returns (r: Call<()>)
      modifies this
      ensures !portOpen ==> client == old(client) && connected == old(connected)
      ensures !portOpen ==> r == Raises(ConnectFailure(ProbeFailure(host, port), host, port))
      ensures !portOpen ==> r.error.cls == SSHExecutionError
      ensures portOpen && knownHostsExists ==> client == Some(Paramiko(RejectPolicy, loadKeys.Returns?))
      ensures portOpen && !knownHostsExists ==> client == Some(Paramiko(AutoAddPolicy, false))
      ensures portOpen && knownHostsExists && loadKeys.Raises? ==>
        connected == old(connected) && r == Raises(ConnectFailure(loadKeys.error, host, port))
      ensures portOpen && (!knownHostsExists || loadKeys.Returns?) && handshake.Raises? ==>
        connected == old(connected) && r == Raises(ConnectFailure(handshake.error, host, port))
      ensures portOpen && (!knownHostsExists || loadKeys.Returns?) && handshake.Returns? ==>
        connected && r == Returns(())
    {
      if !portOpen {
        ProbeFailureMisclassified(host, port);
        return Raises(ConnectFailure(ProbeFailure(host, port), host, port));
      }
      // A fresh paramiko client rejects unknown host keys and has loaded no known hosts.
      client := Some(Paramiko(RejectPolicy, false));
      var configured := ConfigureHostKeyPolicy(knownHostsExists, loadKeys);
      if configured.Raises? {
        return Raises(ConnectFailure(configured.error, host, port));
      }
      if handshake.Raises? {
        return Raises(ConnectFailure(handshake.error, host, port));
      }
      connected := true;
      r := Returns(());
    }

    /**
     * `connect` as its docstring describes it: the project's own network errors pass through
     * the handlers unchanged, so a closed port is reported as DeviceOfflineError.
     */
    method ConnectIntended(portOpen: bool, knownHostsExists: bool, loadKeys: Call<()>, handshake: Call<()>) returns (r: Call<()>)
      modifies this
      ensures !portOpen ==> client == old(client) && connected == old(connected)
      ensures !portOpen ==> r == Raises(ConnectFailureIntended(ProbeFailure(host, port), host, port))
      ensures !portOpen ==> r.error.cls == DeviceOfflineError
      ensures portOpen && knownHostsExists ==> client == Some(Paramiko(RejectPolicy, loadKeys.Returns?))
      ensures portOpen && !knownHostsExists ==> client == Some(Paramiko(AutoAddPolicy, false))
      ensures portOpen && knownHostsExists && loadKeys.Raises? ==>
        connected == old(connected) && r == Raises(ConnectFailureIntended(loadKeys.error, host, port))
      ensures portOpen && (!knownHostsExists || loadKeys.Returns?) && handshake.Raises? ==>
        connected == old(connected) && r == Raises(ConnectFailureIntended(handshake.error, host, port))
      ensures portOpen && (!knownHostsExists || loadKeys.Returns?) && handshake.Returns? ==>
        connected && r == Returns(())
    {
      if !portOpen {
        ProbeFailureIntended(host, port);
        return Raises(ConnectFailureIntended(ProbeFailure(host, port), host, port));
      }
      client := Some(Paramiko(RejectPolicy, false));
      var configured := ConfigureHostKeyPolicy(knownHostsExists, loadKeys);
      if configured.Raises? {
        return Raises(ConnectFailureIntended(configured.error, host, port));
      }
      if handshake.Raises? {
        return Raises(ConnectFailureIntended(handshake.error, host, port));
      }
      connected := true;
      r := Returns(());
    }

    /** `execute_safe_command`: the result and the command line actually sent, if one was. */
    method ExecuteSafeCommand(cmd: CommandType, filters: Option<seq<string>>, exec: ExecOutcome)
      returns (r: Call<string>, sent: Option<string>)
      ensures !Usable() ==> r == Raises(NotConnected) && sent == None
      ensures Usable() ==> r == CommandResult(host, SafeCommand(cmd, filters), exec)
      ensures Usable() && SafeCommand(cmd, filters).Returns? ==> sent == Some(SafeCommand(cmd, filters).value)
      ensures Usable() && SafeCommand(cmd, filters).Raises? ==> sent == None
    {
      if !connected || client.None? {
        return Raises(NotConnected), None;
      }
      var comando := BuildSafeCommand(cmd, filters);
      if comando.Raises? {
        return Raises(ExecFailure(comando.error, host)), None;
      }
      sent := Some(comando.value);
      match exec {
        case Failed(e) =>
          r := Raises(ExecFailure(e, host));
        case Completed(status, out, err) =>
          var output := Strip(out);
          if status != 0 {
            var erroMsg := ExitFailureDetail(status, err);
            r := Raises(Error(SSHExecutionError, "Comando falhou: " + erroMsg));
          } else {
            r := Returns(output);
          }
      }
    }

    /** `close`: the client reference is always dropped; the session counts as closed only if closing succeeded. */
    method Close(closeOutcome: Call<()>)
      modifies this
      ensures client == None
      ensures connected == (if old(client).Some? && closeOutcome.Returns? then false else old(connected))
    {
      if client.Some? {
        if closeOutcome.Returns? {
          connected := false;
        }
        client := None;
      }
    }

    /** `__exit__`: closes and never suppresses the exception in flight. */
    method Exit(closeOutcome: Call<()>) returns (suppress: bool)
      modifies this
      ensures client == None
      ensures connected == (if old(client).Some? && closeOutcome.Returns? then false else old(connected))
      ensures !suppress
    {
      Close(closeOutcome);
      suppress := false;
    }
  }

  /** Whether `connect` succeeds, given the outcomes it depends on. */
  predicate ConnectSucceeds(portOpen: bool, knownHostsExists: bool, loadKeys: Call<()>, handshake: Call<()>) {
    portOpen && (!knownHostsExists || loadKeys.Returns?) && handshake.Returns?
  }

  /**
   * `with SSHClient(...) as client: client.execute_safe_command(...)`. When `__enter__` raises,
   * `__exit__` does not run, so a client created before a failed handshake is left open.
   */
  method RunSession(host: string, user: string, password: string, port: int, timeout: int,
                    portOpen: bool, knownHostsExists: bool, loadKeys: Call<()>, handshake: Call<()>,
                    cmd: CommandType, filters: Option<seq<string>>, exec: ExecOutcome, closeOutcome: Call<()>)
    returns (r: Call<string>, sent: Option<string>, leftOpen: bool)
    ensures r.Returns? <==>
      ConnectSucceeds(portOpen, knownHostsExists, loadKeys, handshake) && SafeCommand(cmd, filters).Returns? && exec.Completed? && exec.exitStatus == 0
    ensures r.Returns? ==> r.value == Strip(exec.stdout)
    ensures r.Raises? ==> r.error.cls in {DeviceOfflineError, AuthenticationError, SSHExecutionError}
    ensures !portOpen ==> r.Raises? && r.error.cls == SSHExecutionError
    ensures sent.Some? ==> SafeCommand(cmd, filters).Returns? && sent.value == SafeCommand(cmd, filters).value
    ensures sent.Some? <==> ConnectSucceeds(portOpen, knownHostsExists, loadKeys, handshake) && SafeCommand(cmd, filters).Returns?
    ensures leftOpen <==> portOpen && !ConnectSucceeds(portOpen, knownHostsExists, loadKeys, handshake)
  {
    var c := new SSHClient(host, user, password, port, timeout);
    var entered := c.Connect(portOpen, knownHostsExists, loadKeys, handshake);
    if entered.Raises? {
      r := Raises(entered.error);
      sent := None;
      leftOpen := c.client.Some?;
      return;
    }
    r, sent := c.ExecuteSafeCommand(cmd, filters, exec);
    var suppressed := c.Exit(closeOutcome);
    leftOpen := c.client.Some?;
  }
}
