/**
 * The processing engine of app/core/engine.py: credential lookup from the configuration,
 * the per-device report, and the batch over many devices. The SSH session is an input:
 * its outcome (the command output, or the error it raised) is supplied per device.
 */
module Engine {
  import opened Options
  import opened Exceptions
  import opened PyText
  import opened JsonValue
  import SshClient

  /** The triple `_get_credentials` returns. */
  datatype Credentials = Credentials(user: string, password: string, port: int)

  /** `int(config.get("SSH_PORT", 22))`. */
  function ConfigPort(config: map<string, string>): (r: Call<int>)
    ensures "SSH_PORT" !in config ==> r == Returns(22)
    ensures "SSH_PORT" in config ==> (r.Returns? <==> ParseInt(config["SSH_PORT"]).Some?)
    ensures r.Raises? ==> r.error.cls == ValueError
  {
    if "SSH_PORT" !in config then Returns(22)
    else match ParseInt(config["SSH_PORT"])
      case Some(p) => Returns(p)
      case None => Raises(Error(ValueError, "invalid literal for int() with base 10: " + Repr(config["SSH_PORT"])))
  }

  /** `user` and `password` are both present and non-empty. */
  predicate HasLogin(config: map<string, string>) {
    "SSH_USER" in config && config["SSH_USER"] != "" && "SSH_PASSWORD" in config && config["SSH_PASSWORD"] != ""
  }

  /** `_get_credentials`: the port is converted first, then the login is checked. */
  function GetCredentials(config: map<string, string>): (r: Call<Credentials>)
    ensures r.Returns? <==> ConfigPort(config).Returns? && HasLogin(config)
    ensures r.Returns? ==> r.value == Credentials(config["SSH_USER"], config["SSH_PASSWORD"], ConfigPort(config).value)
    ensures r.Raises? ==> r.error.cls == ValueError
    ensures ConfigPort(config).Returns? && !HasLogin(config) ==>
      r == Raises(Error(ValueError, "SSH_USER ou SSH_PASSWORD ausentes no arquivo .env"))
  {
    match ConfigPort(config)
    case Raises(e) => Raises(e)
    case Returns(port) =>
      if !HasLogin(config) then Raises(Error(ValueError, "SSH_USER ou SSH_PASSWORD ausentes no arquivo .env"))
      else Returns(Credentials(config["SSH_USER"], config["SSH_PASSWORD"], port))
  }

  /** A port written in decimal in the configuration is the port used. */
  lemma ConfigPortOfText(config: map<string, string>, port: int)
    requires "SSH_PORT" in config && config["SSH_PORT"] == IntToString(port)
    ensures ConfigPort(config) == Returns(port)
  {
    ParseIntOfIntToString(port);
  }

  /** The engine: its configuration and the SSH timeout. */
  datatype ProcessingEngine = ProcessingEngine(config: map<string, string>, timeout: int)

  /** `ProcessamentoEngine(config, timeout)` with `__post_init__` looking the credentials up directly. */
  function NewEngine(config: map<string, string>, timeout: int := 12): (r: Call<ProcessingEngine>)
    ensures r.Returns? <==> GetCredentials(config).Returns?
    ensures r.Returns? ==> r.value == ProcessingEngine(config, timeout)
    ensures r.Raises? ==> r.error == Error(ValueError, "Falha na validação do Engine: " + GetCredentials(config).error.msg)
  {
    match GetCredentials(config)
    case Raises(e) => Raises(Error(ValueError, "Falha na validação do Engine: " + e.msg))
    case Returns(_) => Returns(ProcessingEngine(config, timeout))
  }

  /**
   * `_get_credentials` as written: `lru_cache` hashes `self`, and a non-frozen dataclass that
   * compares by value has no hash, so the call raises before any lookup is made.
   */
  function CachedCredentialsAsWritten(e: ProcessingEngine): (r: Call<Credentials>)
    ensures r.Raises? && r.error.cls == TypeError
  {
    Raises(Error(TypeError, "unhashable type: 'ProcessamentoEngine'"))
  }

  /** `ProcessamentoEngine(config, timeout)` as written, validating through the cached lookup: it never succeeds. */
  function NewEngineAsWritten(config: map<string, string>, timeout: int := 12): (r: Call<ProcessingEngine>)
    ensures r.Raises? && r.error.cls == ValueError
  {
    match CachedCredentialsAsWritten(ProcessingEngine(config, timeout))
    case Raises(e) => Raises(Error(ValueError, "Falha na validação do Engine: " + e.msg))
    case Returns(_) => Returns(ProcessingEngine(config, timeout))
  }

  /** A complete configuration: the intended construction accepts it, the written one does not. */
  lemma CompleteConfigRejectedAsWritten(timeout: int)
    ensures var good := map["SSH_USER" := "admin", "SSH_PASSWORD" := "secret"];
      NewEngine(good, timeout).Returns? && NewEngineAsWritten(good, timeout).Raises?
  {
    var good := map["SSH_USER" := "admin", "SSH_PASSWORD" := "secret"];
    assert "SSH_PORT" !in good;
    assert ConfigPort(good) == Returns(22);
    assert HasLogin(good);
    assert GetCredentials(good).Returns?;
  }

  /** A device to process: its address and, when the task object has one, its name. */
  datatype Task = Task(ip: string, nome: Option<string>)

  /** One device's work: the task, what its SSH session yielded, and the time of day it started. */
  datatype Job = Job(task: Task, session: Call<string>, hora: string)

  /** The report dict of `processar_unidade`. */
  datatype Report = Report(ip: string, nome: string, status: string, clientes: int, hora: string, erro: Option<string>)

  /** The client count read from the command output: its value when it is all digits, else 0. */
  function ClientCount(output: string): (n: nat)
    ensures IsDigits(Strip(output)) ==> n == DigitsValue(Strip(output))
    ensures !IsDigits(Strip(output)) ==> n == 0
  {
    var t := Strip(output);
    if IsDigits(t) then DigitsValue(t) else 0
  }

  /** A count printed in decimal, with any surrounding whitespace, is read back exactly. */
  lemma ClientCountOfText(n: nat, before: string, after: string)
    requires forall i :: 0 <= i < |before| ==> IsSpace(before[i])
    requires forall i :: 0 <= i < |after| ==> IsSpace(after[i])
    ensures ClientCount(before + NatToString(n) + after) == n
  {
    var digits := NatToString(n);
    assert !IsSpace(digits[0]) && !IsSpace(digits[|digits| - 1]);
    StripOfPadded(before, digits, after);
    DigitsValueOfNatToString(n);
  }

  /** The report for one device, as `processar_unidade` fills it in. */
  function UnitReport(e: ProcessingEngine, job: Job): (r: Report)
    ensures r.ip == job.task.ip && r.hora == job.hora
    ensures r.nome == job.task.nome.GetOr("N/A")
    ensures r.clientes >= 0
    ensures r.status == "Online" || r.status == "Falha"
    ensures r.status == "Online" <==> GetCredentials(e.config).Returns? && job.session.Returns?
    ensures r.status == "Online" ==> r.clientes == ClientCount(job.session.value) && r.erro == None
    ensures r.status == "Falha" ==> r.clientes == 0 && r.erro.Some?
  {
    var initial := Report(job.task.ip, job.task.nome.GetOr("N/A"), "Iniciando...", 0, job.hora, None);
    match GetCredentials(e.config)
    case Raises(err) => initial.(status := "Falha", erro := Some(err.msg))
    case Returns(_) =>
      match job.session
      case Raises(err) => initial.(status := "Falha", erro := Some(err.msg))
      case Returns(output) => initial.(clientes := ClientCount(output), status := "Online")
  }

  /** The error text recorded for a failure is the failing step's message. */
  lemma FailureMessage(e: ProcessingEngine, job: Job)
    ensures GetCredentials(e.config).Raises? ==> UnitReport(e, job).erro == Some(GetCredentials(e.config).error.msg)
    ensures GetCredentials(e.config).Returns? && job.session.Raises? ==> UnitReport(e, job).erro == Some(job.session.error.msg)
  {
  }

  /**
   * `processar_unidade`: build the initial report, then overwrite its status, count and error
   * as the credential lookup and the session turn out. It never raises.
   */
  method ProcessUnit(e: ProcessingEngine, job: Job) returns (resultado: Report)
    ensures resultado == UnitReport(e, job)
  {
    resultado := Report(job.task.ip, job.task.nome.GetOr("N/A"), "Iniciando...", 0, job.hora, None);
    var creds := GetCredentials(e.config);
    if creds.Raises? {
      resultado := resultado.(status := "Falha");
      resultado := resultado.(erro := Some(creds.error.msg));
      return;
    }
    match job.session {
      case Raises(err) =>
        resultado := resultado.(status := "Falha");
        resultado := resultado.(erro := Some(err.msg));
      case Returns(output) =>
        var stripped := Strip(output);
        resultado := resultado.(clientes := if IsDigits(stripped) then DigitsValue(stripped) else 0);
        resultado := resultado.(status := "Online");
    }
  }

  /** `processar_em_lote`: one report per job, in the order of the jobs. */
  method ProcessBatch(e: ProcessingEngine, jobs: seq<Job>, maxWorkers: int := 10) returns (resultados: seq<Report>)
    ensures |resultados| == |jobs|
    ensures forall i :: 0 <= i < |jobs| ==> resultados[i] == UnitReport(e, jobs[i])
  {
    resultados := [];
    var i := 0;
    while i < |jobs|
      invariant 0 <= i <= |jobs|
      invariant |resultados| == i
      invariant forall k :: 0 <= k < i ==> resultados[k] == UnitReport(e, jobs[k])
    {
      var r := ProcessUnit(e, jobs[i]);
      resultados := resultados + [r];
      i := i + 1;
    }
  }

  /** The dict a report is, keys in the order the code writes them. */
  function ReportValue(r: Report): (v: Value)
    ensures v.Obj? && |v.entries| == 6
    ensures Get(v.entries, "status") == Some(Str(r.status))
    ensures Get(v.entries, "erro") == Some(if r.erro.Some? then Str(r.erro.value) else Null)
  {
    ReportStatusEntries(r);
    Obj(ReportEntries(r))
  }

  function ReportEntries(r: Report): seq<(string, Value)> {
    [("ip", Str(r.ip)), ("nome", Str(r.nome)), ("status", Str(r.status)), ("clientes", Num(r.clientes)),
     ("hora", Str(r.hora)), ("erro", if r.erro.Some? then Str(r.erro.value) else Null)]
  }

  /** Keys that differ in length or in their first letter are different keys. */
  predicate Apart(a: string, b: string) {
    |a| != |b| || (a != [] && a[0] != b[0])
  }

  lemma ReportStatusEntries(r: Report)
    ensures Get(ReportEntries(r), "status") == Some(Str(r.status))
    ensures Get(ReportEntries(r), "erro") == Some(if r.erro.Some? then Str(r.erro.value) else Null)
  {
    var e := ReportEntries(r);
    assert Apart(e[0].0, "status") && Apart(e[1].0, "status");
    GetFirst(e, "status", 2);
    assert Apart(e[0].0, "erro") && Apart(e[1].0, "erro") && Apart(e[2].0, "erro");
    assert Apart(e[3].0, "erro") && Apart(e[4].0, "erro");
    GetFirst(e, "erro", 5);
  }

  /** The report dict also carries the address, the count and the time. */
  lemma ReportValueFields(r: Report)
    ensures var e := ReportValue(r).entries;
      && Get(e, "ip") == Some(Str(r.ip))
      && Get(e, "clientes") == Some(Num(r.clientes))
      && Get(e, "hora") == Some(Str(r.hora))
  {
    var e := ReportEntries(r);
    GetFirst(e, "ip", 0);
    assert Apart(e[0].0, "clientes") && Apart(e[1].0, "clientes") && Apart(e[2].0, "clientes");
    GetFirst(e, "clientes", 3);
    assert Apart(e[0].0, "hora") && Apart(e[1].0, "hora") && Apart(e[2].0, "hora") && Apart(e[3].0, "hora");
    GetFirst(e, "hora", 4);
  }

  /** The report dict has no "torre" and no "observacao" key. */
  lemma ReportValueLacks(r: Report)
    ensures !Has(ReportValue(r).entries, "torre") && !Has(ReportValue(r).entries, "observacao")
  {
    var e := ReportEntries(r);
    assert Apart(e[0].0, "torre") && Apart(e[1].0, "torre") && Apart(e[2].0, "torre");
    assert Apart(e[3].0, "torre") && Apart(e[4].0, "torre") && Apart(e[5].0, "torre");
    assert Apart(e[0].0, "observacao") && Apart(e[1].0, "observacao") && Apart(e[2].0, "observacao");
    assert Apart(e[3].0, "observacao") && Apart(e[4].0, "observacao") && Apart(e[5].0, "observacao");
  }


  /**
   * The `with` block of `processar_unidade` as written: once connected it calls
   * `client.execute`, which SSHClient does not define, so the session never yields output.
   */
  method SessionAsWritten(ip: string, creds: Credentials, timeout: int,
                          portOpen: bool, knownHostsExists: bool, loadKeys: Call<()>, handshake: Call<()>,
                          closeOutcome: Call<()>)
    returns (r: Call<string>)
    ensures r.Raises?
    ensures SshClient.ConnectSucceeds(portOpen, knownHostsExists, loadKeys, handshake) ==>
      r == Raises(Error(AttributeError, "'SSHClient' object has no attribute 'execute'"))
  {
    var client := new SshClient.SSHClient(ip, creds.user, creds.password, creds.port, timeout);
    var entered := client.Connect(portOpen, knownHostsExists, loadKeys, handshake);
    if entered.Raises? {
      return Raises(entered.error);
    }
    r := Raises(Error(AttributeError, "'SSHClient' object has no attribute 'execute'"));
    var suppressed := client.Exit(closeOutcome);
  }

  /** With such a session every report is a failure, so no device is ever reported online. */
  lemma NeverOnlineAsWritten(e: ProcessingEngine, job: Job)
    requires job.session.Raises?
    ensures UnitReport(e, job).status == "Falha" && UnitReport(e, job).clientes == 0
  {
  }
}
