/** The shared constants of app/utils/constants.py: timeouts, radio statuses, their sort ranks, credentials. */
module Constants {
  import opened Options

  // NetworkConfig, in seconds where they are durations.
  const SSH_TIMEOUT: nat := 12
  const SSH_BANNER_TIMEOUT: nat := 15
  const SOCKET_TIMEOUT: nat := 5
  const MAX_WORKERS: nat := 10
  const TASK_TIMEOUT: nat := 30
  const CIRCUIT_BREAKER_THRESHOLD: nat := 5
  const RETRY_ATTEMPTS: nat := 3
  const RETRY_BACKOFF_MIN: nat := 2
  const RETRY_BACKOFF_MAX: nat := 10

  /** The probe gives up before the handshake does, and the handshake before the banner wait. */
  lemma TimeoutsOrdered()
    ensures SOCKET_TIMEOUT < SSH_TIMEOUT < SSH_BANNER_TIMEOUT
    ensures RETRY_BACKOFF_MIN <= RETRY_BACKOFF_MAX
  {
  }

  datatype StatusRadio = Online | Offline | ErroAuth | ErroSsh | Timeout | Erro | Desconhecido {
    /** The enum member's string value. */
    function Value(): string {
      match this
      case Online => "Online"
      case Offline => "Offline"
      case ErroAuth => "Erro Auth"
      case ErroSsh => "Erro SSH"
      case Timeout => "Timeout"
      case Erro => "Erro"
      case Desconhecido => "Desconhecido"
    }
  }

  /** STATUS_PRIORITY: the most urgent status sorts first. */
  const STATUS_PRIORITY: map<string, nat> := map[
    Erro.Value() := 0,
    Timeout.Value() := 1,
    Offline.Value() := 2,
    ErroAuth.Value() := 3,
    ErroSsh.Value() := 4,
    Online.Value() := 5
  ]

  /** The rank of a status in STATUS_PRIORITY, if it has one. */
  function Rank(s: StatusRadio): (r: Option<nat>)
    ensures r.Some? <==> s != Desconhecido
    ensures r.Some? ==> r.value <= 5
    ensures s == Erro ==> r == Some(0)
    ensures s == Online ==> r == Some(5)
  {
    if s.Value() in STATUS_PRIORITY then Some(STATUS_PRIORITY[s.Value()]) else None
  }

  /** Distinct statuses have distinct values and distinct ranks; Offline ranks before Online. */
  lemma RanksDistinct(a: StatusRadio, b: StatusRadio)
    requires a != b
    ensures a.Value() != b.Value()
    ensures Rank(a).Some? && Rank(b).Some? ==> Rank(a).value != Rank(b).value
    ensures Rank(Offline).value < Rank(Online).value
  {
  }

  /** The table has exactly the six ranked statuses and no two of them share a rank. */
  lemma PriorityTableShape()
    ensures |STATUS_PRIORITY| == 6
    ensures Desconhecido.Value() !in STATUS_PRIORITY
    ensures forall k1, k2 :: k1 in STATUS_PRIORITY && k2 in STATUS_PRIORITY && k1 != k2 ==> STATUS_PRIORITY[k1] != STATUS_PRIORITY[k2]
  {
    var keys := STATUS_PRIORITY.Keys;
    assert keys == {"Erro", "Timeout", "Offline", "Erro Auth", "Erro SSH", "Online"};
  }

  /** SSH credentials; the value is immutable (a frozen dataclass). */
  datatype Credenciais = Credenciais(usuario: string, senha: string) {
    /** `__repr__`: a fixed text that shows neither field. */
    function Repr(): string {
      "Credenciais(usuario=*****, senha=****)"
    }
  }

  /** What `repr` shows is the same for every pair of credentials, so it reveals nothing about them. */
  lemma ReprRevealsNothing(a: Credenciais, b: Credenciais)
    ensures a.Repr() == b.Repr()
  {
  }
}
