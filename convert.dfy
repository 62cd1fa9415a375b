/**
 * The inventory converter of data/convert.py: its IP cleaner and the extraction that groups
 * the valid addresses of a JSON or text inventory by tower, counting them. The file is an
 * input: whether it opened, what `json.load` made of it, and the lines a text read yielded.
 */
module Convert {
  import opened Options
  import opened PyText
  import opened JsonValue
  import Ipv4

  // ---- The IP cleaner ----

  /** The address candidate in a text: what precedes the first ':', without surrounding whitespace. */
  function Candidate(text: string): (r: Option<string>)
    ensures r.Some? ==> Ipv4.IsIPv4(r.value) && ':' !in r.value
    ensures Ipv4.IsIPv4(Strip(TakeBefore(text, ':'))) ==> r == Some(Strip(TakeBefore(text, ':')))
  {
    var t := Strip(TakeBefore(text, ':'));
    StripSubstring(TakeBefore(text, ':'));
    if Ipv4.IsIPv4(t) then Some(t) else None
  }

  lemma StripSubstring(s: string)
    ensures forall c :: c in Strip(s) ==> c in s
  {
    var l := StripLeft(s);
    forall c | c in StripRight(l)
      ensures c in s
    {
      var i :| 0 <= i < |StripRight(l)| && StripRight(l)[i] == c;
      assert l[i] == c;
      assert s[|s| - |l| + i] == c;
    }
  }

  /**
   * `validar_e_limpar_ip`: `None` for a falsy value; otherwise the candidate in `str(value)`
   * if it is an address. `str` of a list or dict opens with a bracket, which no address does.
   */
  function CleanIp(v: Value): (r: Option<string>)
    ensures !Truthy(v) ==> r == None
    ensures v.Str? && v.s != "" ==> r == Candidate(v.s)
    ensures v.Str? && Ipv4.IsIPv4(Strip(TakeBefore(v.s, ':'))) ==> r == Some(Strip(TakeBefore(v.s, ':')))
    ensures r.Some? ==> Ipv4.IsIPv4(r.value)
  {
    if !Truthy(v) then None
    else match v
      case Str(s) => Candidate(s)
      case Num(n) => Candidate(IntToString(n))
      case Bool(_) => Candidate("True")
      case _ => None
  }

  /** An address comes back as it is, whether padded with whitespace or followed by a port. */
  lemma CleanIpOfAddress(a: string, before: string, after: string, port: string)
    requires Ipv4.IsIPv4(a)
    requires forall i :: 0 <= i < |before| ==> IsSpace(before[i])
    requires forall i :: 0 <= i < |after| ==> IsSpace(after[i])
    ensures CleanIp(Str(before + a + after)) == Some(a)
    ensures CleanIp(Str(a + ":" + port)) == Some(a)
  {
    Ipv4.IPv4Chars(a);
    assert !IsSpace(a[0]) && !IsSpace(a[|a| - 1]);
    var padded := before + a + after;
    assert ':' !in padded by {
      forall i | 0 <= i < |padded| ensures padded[i] != ':' {
        if i < |before| {
          assert padded[i] == before[i];
        } else if i < |before| + |a| {
          assert padded[i] == a[i - |before|];
        } else {
          assert padded[i] == after[i - |before| - |a|];
        }
      }
    }
    assert TakeBefore(padded, ':') == padded;
    StripOfPadded(before, a, after);
    assert ':' !in a;
    assert a + ":" + port == a + [':'] + port;
    TakeBeforeOfPrefix(a, port, ':');
    StripOfTrimmed(a);
  }

  /** Text without a dot is never an address. */
  lemma NoDotNoAddress(t: string)
    requires '.' !in t
    ensures !Ipv4.IsIPv4(t)
  {
    assert |Split(t, '.')| == 1;
  }

  /** Only strings can yield an address: `str` of a number or a boolean has no dot. */
  lemma OnlyStringsYieldAddresses(v: Value)
    requires !v.Str?
    ensures CleanIp(v) == None
  {
    if v.Num? && Truthy(v) {
      var text := IntToString(v.n);
      NumberTextHasNoDot(v.n);
      var t := TakeBefore(text, ':');
      assert '.' !in t;
      StripSubstring(t);
      NoDotNoAddress(Strip(t));
    } else if v.Bool? && Truthy(v) {
      var t := TakeBefore("True", ':');
      assert '.' !in t;
      StripSubstring(t);
      NoDotNoAddress(Strip(t));
    }
  }

  lemma NumberTextHasNoDot(n: int)
    ensures '.' !in IntToString(n)
  {
    var m: nat := if n < 0 then -n else n;
    var digits := NatToString(m);
    assert forall i :: 0 <= i < |digits| ==> IsDigit(digits[i]);
    if n < 0 {
      assert IntToString(n) == "-" + digits;
    } else {
      assert IntToString(n) == digits;
    }
  }

  // ---- The tally: tower name to addresses, in insertion order, with a counter ----

  datatype Tally = Tally(groups: seq<(string, seq<string>)>, count: nat)

  const Empty: Tally := Tally([], 0)

  lemma EmptyValid()
    ensures Valid(Empty) && Keys(Empty.groups) == {}
  {
  }

  /** The number of addresses across all groups. */
  function Total(groups: seq<(string, seq<string>)>): nat {
    if groups == [] then 0 else Total(groups[..|groups| - 1]) + |groups[|groups| - 1].1|
  }

  function Keys(groups: seq<(string, seq<string>)>): set<string> {
    set i | 0 <= i < |groups| :: groups[i].0
  }

  /** The position of the group for `k`, if there is one. */
  function IndexOf(groups: seq<(string, seq<string>)>, k: string): (r: Option<nat>)
    ensures r.Some? ==> r.value < |groups| && groups[r.value].0 == k
    ensures r.None? ==> k !in Keys(groups)
  {
    if groups == [] then None
    else if groups[|groups| - 1].0 == k then Some(|groups| - 1)
    else
      var r := IndexOf(groups[..|groups| - 1], k);
      assert Keys(groups) == Keys(groups[..|groups| - 1]) + {groups[|groups| - 1].0};
      r
  }

  /** Keys are distinct, no group is empty, every entry is an address, and the counter is the total. */
  predicate Valid(t: Tally) {
    && (forall i, j :: 0 <= i < j < |t.groups| ==> t.groups[i].0 != t.groups[j].0)
    && (forall i :: 0 <= i < |t.groups| ==> t.groups[i].1 != [])
    && (forall i, j :: 0 <= i < |t.groups| && 0 <= j < |t.groups[i].1| ==> Ipv4.IsIPv4(t.groups[i].1[j]))
    && t.count == Total(t.groups)
  }

  /** The addresses filed under `k`. */
  function Lookup(groups: seq<(string, seq<string>)>, k: string): seq<string> {
    match IndexOf(groups, k)
    case Some(i) => groups[i].1
    case None => []
  }

  /** `dados_temp.setdefault(torre, []).append({"ip": ip}); sucesso += 1`. */
  function Add(t: Tally, k: string, ip: string): (r: Tally)
    requires Ipv4.IsIPv4(ip)
    ensures r.count == t.count + 1
    ensures Keys(r.groups) == Keys(t.groups) + {k}
    ensures Valid(t) ==> Valid(r)
    ensures Valid(t) ==> Lookup(r.groups, k) == Lookup(t.groups, k) + [ip]
    ensures Valid(t) ==> forall k' :: k' != k ==> Lookup(r.groups, k') == Lookup(t.groups, k')
  {
    match IndexOf(t.groups, k)
    case Some(i) =>
      var groups := t.groups[i := (k, t.groups[i].1 + [ip])];
      KeysUpdate(t.groups, i, ip);
      TotalUpdate(t.groups, i, ip);
      UpdateValid(t, i, ip);
      LookupAfterUpdate(t, i, k, ip);
      Tally(groups, t.count + 1)
    case None =>
      var groups := t.groups + [(k, [ip])];
      KeysAppend(t.groups, (k, [ip]));
      AppendValid(t, k, ip);
      LookupAfterAppend(t, k, ip);
      Tally(groups, t.count + 1)
  }

  lemma KeysUpdate(groups: seq<(string, seq<string>)>, i: nat, ip: string)
    requires i < |groups|
    ensures Keys(groups[i := (groups[i].0, groups[i].1 + [ip])]) == Keys(groups)
  {
    var updated := groups[i := (groups[i].0, groups[i].1 + [ip])];
    forall x | x in Keys(groups) ensures x in Keys(updated) {
      var j :| 0 <= j < |groups| && groups[j].0 == x;
      assert updated[j].0 == x;
    }
  }

  lemma UpdateValid(t: Tally, i: nat, ip: string)
    requires i < |t.groups| && Ipv4.IsIPv4(ip)
    ensures Valid(t) ==> Valid(Tally(t.groups[i := (t.groups[i].0, t.groups[i].1 + [ip])], t.count + 1))
  {
    TotalUpdate(t.groups, i, ip);
  }

  lemma AppendValid(t: Tally, k: string, ip: string)
    requires k !in Keys(t.groups) && Ipv4.IsIPv4(ip)
    ensures Valid(t) ==> Valid(Tally(t.groups + [(k, [ip])], t.count + 1))
  {
    if Valid(t) {
      var groups := t.groups + [(k, [ip])];
      KeysAppend(t.groups, (k, [ip]));
      forall a, b | 0 <= a < b < |groups| ensures groups[a].0 != groups[b].0 {
        if b == |t.groups| {
          assert groups[a] == t.groups[a];
          assert groups[a].0 in Keys(t.groups);
        } else {
          assert groups[a] == t.groups[a] && groups[b] == t.groups[b];
        }
      }
      forall a | 0 <= a < |groups| ensures groups[a].1 != [] {
        if a < |t.groups| { assert groups[a] == t.groups[a]; }
      }
      forall a, j | 0 <= a < |groups| && 0 <= j < |groups[a].1| ensures Ipv4.IsIPv4(groups[a].1[j]) {
        if a < |t.groups| { assert groups[a] == t.groups[a]; }
      }
    }
  }

  lemma KeysAppend(groups: seq<(string, seq<string>)>, g: (string, seq<string>))
    ensures Keys(groups + [g]) == Keys(groups) + {g.0}
    ensures Total(groups + [g]) == Total(groups) + |g.1|
  {
    var all := groups + [g];
    assert all[..|all| - 1] == groups;
    forall x | x in Keys(groups) ensures x in Keys(all) {
      var j :| 0 <= j < |groups| && groups[j].0 == x;
      assert all[j].0 == x;
    }
    assert all[|groups|].0 == g.0;
  }

  lemma {:induction false} TotalUpdate(groups: seq<(string, seq<string>)>, i: nat, ip: string)
    requires i < |groups|
    ensures Total(groups[i := (groups[i].0, groups[i].1 + [ip])]) == Total(groups) + 1
    decreases |groups|
  {
    var updated := groups[i := (groups[i].0, groups[i].1 + [ip])];
    var n := |groups| - 1;
    if i < n {
      assert updated[..n] == groups[..n][i := (groups[i].0, groups[i].1 + [ip])];
      TotalUpdate(groups[..n], i, ip);
    } else {
      assert updated[..n] == groups[..n];
    }
  }

  lemma {:induction false} IndexOfDistinct(groups: seq<(string, seq<string>)>, i: nat)
    requires i < |groups|
    requires forall a, b :: 0 <= a < b < |groups| ==> groups[a].0 != groups[b].0
    ensures IndexOf(groups, groups[i].0) == Some(i)
    decreases |groups|
  {
    var n := |groups| - 1;
    if i < n {
      IndexOfDistinct(groups[..n], i);
    }
  }

  lemma LookupAfterUpdate(t: Tally, i: nat, k: string, ip: string)
    requires i < |t.groups| && t.groups[i].0 == k
    ensures var groups := t.groups[i := (k, t.groups[i].1 + [ip])];
      Valid(t) ==> (forall k' :: Lookup(groups, k') == if k' == k then Lookup(t.groups, k) + [ip] else Lookup(t.groups, k'))
  {
    var groups := t.groups[i := (k, t.groups[i].1 + [ip])];
    if Valid(t) {
      forall k' ensures Lookup(groups, k') == if k' == k then Lookup(t.groups, k) + [ip] else Lookup(t.groups, k') {
        LookupAfterUpdateAt(t, i, k, ip, k');
      }
    }
  }

  lemma LookupAfterUpdateAt(t: Tally, i: nat, k: string, ip: string, k': string)
    requires Valid(t) && i < |t.groups| && t.groups[i].0 == k
    ensures var groups := t.groups[i := (k, t.groups[i].1 + [ip])];
      Lookup(groups, k') == if k' == k then Lookup(t.groups, k) + [ip] else Lookup(t.groups, k')
  {
    var groups := t.groups[i := (k, t.groups[i].1 + [ip])];
    assert forall a | 0 <= a < |groups| :: groups[a].0 == t.groups[a].0;
    if k' == k {
      IndexOfDistinct(t.groups, i);
      IndexOfDistinct(groups, i);
    } else {
      match IndexOf(t.groups, k') {
        case Some(j) =>
          IndexOfDistinct(groups, j);
        case None =>
          assert Keys(groups) == Keys(t.groups);
      }
    }
  }

  lemma LookupAfterAppend(t: Tally, k: string, ip: string)
    requires k !in Keys(t.groups)
    ensures forall k' :: Lookup(t.groups + [(k, [ip])], k') == if k' == k then Lookup(t.groups, k) + [ip] else Lookup(t.groups, k')
  {
    var groups := t.groups + [(k, [ip])];
    assert groups[..|groups| - 1] == t.groups;
    assert IndexOf(t.groups, k) == None;
  }

  // ---- The three inventory formats, as left folds; `stopped` marks an exception that ended the scan ----

  datatype Scan = Scan(tally: Tally, stopped: bool)

  /** The tally after filing `v`'s address under `torre`, if it has one. */
  function File(t: Tally, torre: string, v: Value): (r: Tally)
    ensures Valid(t) ==> Valid(r)
    ensures Keys(r.groups) <= Keys(t.groups) + {torre}
  {
    match CleanIp(v)
    case Some(ip) => Add(t, torre, ip)
    case None => t
  }

  /** `for item in lista: ... item.get("ip")`: an item that is not a dict raises. */
  function ScanItems(items: seq<Value>, torre: string, t: Tally): (r: Scan)
    ensures Valid(t) ==> Valid(r.tally)
    ensures Keys(r.tally.groups) <= Keys(t.groups) + {torre}
  {
    if items == [] then Scan(t, false)
    else if !items[0].Obj? then Scan(t, true)
    else ScanItems(items[1..], torre, File(t, torre, GetOr(items[0].entries, "ip", Null)))
  }

  /** `for torre, lista_ips in secao_dados.items()`: each list must be iterable. */
  function ScanTowers(entries: seq<(string, Value)>, t: Tally): (r: Scan)
    ensures Valid(t) ==> Valid(r.tally)
    ensures Keys(r.tally.groups) <= Keys(t.groups) + EntryKeys(entries)
  {
    if entries == [] then Scan(t, false)
    else
      assert EntryKeys(entries) == {entries[0].0} + EntryKeys(entries[1..]);
      match Iterate(entries[0].1)
      case None => Scan(t, true)
      case Some(items) =>
        var s := ScanItems(items, entries[0].0, t);
        if s.stopped then s else ScanTowers(entries[1..], s.tally)
  }

  function EntryKeys(entries: seq<(string, Value)>): set<string> {
    set i | 0 <= i < |entries| :: entries[i].0
  }

  /** The tower of a list block: `nome_torre` upper-cased, "DESCONHECIDA" by default; `None` when it has no `upper`. */
  function BlockTower(entries: seq<(string, Value)>): (r: Option<string>)
    ensures r.Some? ==> Upper(r.value) == r.value
    ensures !Has(entries, "nome_torre") ==> r == Some("DESCONHECIDA")
    ensures Has(entries, "nome_torre") ==> (r.Some? <==> Get(entries, "nome_torre").value.Str?)
    ensures Has(entries, "nome_torre") && r.Some? ==> r.value == Upper(Get(entries, "nome_torre").value.s)
  {
    UpperOfDesconhecida();
    match GetOr(entries, "nome_torre", Str("DESCONHECIDA"))
    case Str(s) => UpperIdempotent(s); Some(Upper(s))
    case _ => None
  }

  lemma UpperOfDesconhecida()
    ensures Upper("DESCONHECIDA") == "DESCONHECIDA"
  {
  }

  /** `for bloco in conteudo`: non-dict blocks are skipped, the rest read their `acessos`. */
  function ScanBlocks(blocks: seq<Value>, t: Tally): (r: Scan)
    ensures Valid(t) ==> Valid(r.tally)
    ensures UpperKeys(t.groups) ==> UpperKeys(r.tally.groups)
  {
    if blocks == [] then Scan(t, false)
    else if !blocks[0].Obj? then ScanBlocks(blocks[1..], t)
    else
      var entries := blocks[0].entries;
      match BlockTower(entries)
      case None => Scan(t, true)
      case Some(torre) =>
        match Iterate(GetOr(entries, "acessos", Arr([])))
        case None => Scan(t, true)
        case Some(items) =>
          var s := ScanItems(items, torre, t);
          if s.stopped then s else ScanBlocks(blocks[1..], s.tally)
  }

  /** Every tower name is already upper case. */
  predicate UpperKeys(groups: seq<(string, seq<string>)>) {
    forall k :: k in Keys(groups) ==> Upper(k) == k
  }

  /** The (address field, tower) of a text line `ip;torre;...`, when it has at least two fields. */
  function LineFields(line: string): (r: Option<(string, string)>)
    ensures r.Some? ==> Upper(r.value.1) == r.value.1
  {
    var parts := Split(Strip(line), ';');
    if |parts| >= 2 then UpperIdempotent(Strip(parts[1])); Some((parts[0], Upper(Strip(parts[1]))))
    else None
  }

  /** `for linha in f`: lines with fewer than two fields are skipped. */
  function ScanLines(lines: seq<string>, t: Tally): (r: Tally)
    ensures Valid(t) ==> Valid(r)
    ensures UpperKeys(t.groups) ==> UpperKeys(r.groups)
  {
    if lines == [] then t
    else
      ScanLines(lines[1..], FileLine(t, LineFields(lines[0])))
  }

  /** One line's step: its address filed under its tower, when it has both fields. */
  function FileLine(t: Tally, f: Option<(string, string)>): (r: Tally)
    requires f.Some? ==> Upper(f.value.1) == f.value.1
    ensures Valid(t) ==> Valid(r)
    ensures UpperKeys(t.groups) ==> UpperKeys(r.groups)
  {
    if f.Some? then File(t, f.value.1, Str(f.value.0)) else t
  }

  // ---- The whole extraction ----

  /** The `os.path.splitext` extension: from the last '.' of the last path component, unless that component is all dots before it. */
  function Extension(path: string): (r: string)
    ensures r == [] || (r[0] == '.' && '/' !in r)
  {
    var name := AfterLast(path, '/');
    var dot := LastIndex(name, '.');
    if dot.Some? && exists j :: 0 <= j < dot.value && name[j] != '.' then name[dot.value..] else []
  }

  /** What `open` and `read` give: nothing; or a decoded JSON value (if it decodes) and the text lines read before any error. */
  datatype SourceFile = Unopenable | Opened(json: Option<Value>, lines: seq<string>, readError: bool)

  /** `extrair_dados`: the groups and count gathered before the end or the first exception. */
  function Extract(path: string, file: SourceFile): (r: Tally)
    ensures Valid(r)
    ensures Lower(Extension(path)) !in {".json", ".txt"} ==> r == Empty
    ensures NeitherFormat(path, file) ==> r == Empty
    ensures DadosSection(path, file).Some? ==> Keys(r.groups) <= EntryKeys(DadosSection(path, file).value)
    ensures DadosSection(path, file).None? ==> UpperKeys(r.groups)
  {
    EmptyValid();
    var ext := Lower(Extension(path));
    match file
    case Unopenable => Empty
    case Opened(json, lines, _) =>
      if ext == ".json" then
        match json
        case None => Empty
        case Some(c) =>
          if c.Obj? && Has(c.entries, "DADOS") then ScanDados(Get(c.entries, "DADOS").value).tally
          else if c.Arr? then ScanBlocks(c.items, Empty).tally
          else Empty
      else if ext == ".txt" then ScanLines(lines, Empty)
      else Empty
  }

  /** The decoded content of a file read as JSON. */
  function JsonContent(path: string, file: SourceFile): Option<Value> {
    if file.Opened? && Lower(Extension(path)) == ".json" then file.json else None
  }

  /** The towers of a JSON file in the DADOS format whose section is a dict. */
  function DadosSection(path: string, file: SourceFile): Option<seq<(string, Value)>> {
    if JsonContent(path, file).Some? then
      var c := JsonContent(path, file).value;
      if c.Obj? && Has(c.entries, "DADOS") && Get(c.entries, "DADOS").value.Obj? then Some(Get(c.entries, "DADOS").value.entries)
      else None
    else None
  }

  /** Decoded JSON that is neither a dict with "DADOS" nor a list. */
  predicate NeitherFormat(path: string, file: SourceFile) {
    && JsonContent(path, file).Some?
    && !JsonContent(path, file).value.Arr?
    && !(JsonContent(path, file).value.Obj? && Has(JsonContent(path, file).value.entries, "DADOS"))
  }

  /** The blocks of a JSON file in the list format. */
  function BlockList(path: string, file: SourceFile): Option<seq<Value>> {
    if JsonContent(path, file).Some? && JsonContent(path, file).value.Arr? then Some(JsonContent(path, file).value.items) else None
  }

  /** `secao_dados.items()`: a section that is not a dict raises at once. */
  function ScanDados(secao: Value): (r: Scan)
    ensures Valid(r.tally)
    ensures secao.Obj? ==> Keys(r.tally.groups) <= EntryKeys(secao.entries)
  {
    if secao.Obj? then ScanTowers(secao.entries, Empty) else Scan(Empty, true)
  }

  /** `extrair_dados`: dispatch on the extension and the decoded content, then run the matching loops. */
  method ExtractData(path: string, file: SourceFile) returns (dadosTemp: seq<(string, seq<string>)>, sucesso: nat)
    ensures Tally(dadosTemp, sucesso) == Extract(path, file)
  {
    dadosTemp, sucesso := [], 0;
    var ext := Lower(Extension(path));
    if file.Unopenable? {
      return;
    }
    if ext == ".json" {
      if file.json.None? {
        return;
      }
      var conteudo := file.json.value;
      if conteudo.Obj? && Has(conteudo.entries, "DADOS") {
        dadosTemp, sucesso := ExtractDados(Get(conteudo.entries, "DADOS").value);
      } else if conteudo.Arr? {
        dadosTemp, sucesso := ExtractBlocks(conteudo.items);
      }
    } else if ext == ".txt" {
      dadosTemp, sucesso := ExtractLines(file.lines);
    }
  }

  /** The inner loop shared by both JSON formats: each item's "ip", filed under `torre`, until an item is not a dict. */
  method ExtractItems(items: seq<Value>, torre: string, groups: seq<(string, seq<string>)>, count: nat)
    returns (dadosTemp: seq<(string, seq<string>)>, sucesso: nat, stopped: bool)
    ensures Scan(Tally(dadosTemp, sucesso), stopped) == ScanItems(items, torre, Tally(groups, count))
  {
    dadosTemp, sucesso, stopped := groups, count, false;
    var j := 0;
    while j < |items|
      invariant 0 <= j <= |items|
      invariant ScanItems(items[j..], torre, Tally(dadosTemp, sucesso)) == ScanItems(items, torre, Tally(groups, count))
    {
      if !items[j].Obj? {
        stopped := true;
        return;
      }
      assert items[j..][1..] == items[j + 1..];
      var ipPuro := CleanIp(GetOr(items[j].entries, "ip", Null));
      if ipPuro.Some? {
        var t := Add(Tally(dadosTemp, sucesso), torre, ipPuro.value);
        dadosTemp, sucesso := t.groups, t.count;
      }
      j := j + 1;
    }
  }

  /** The DADOS loop over towers in key order. */
  method ExtractDados(secao: Value) returns (dadosTemp: seq<(string, seq<string>)>, sucesso: nat)
    ensures Tally(dadosTemp, sucesso) == ScanDados(secao).tally
  {
    dadosTemp, sucesso := [], 0;
    if !secao.Obj? {
      return;
    }
    var entries := secao.entries;
    var i := 0;
    while i < |entries|
      invariant 0 <= i <= |entries|
      invariant ScanTowers(entries[i..], Tally(dadosTemp, sucesso)) == ScanTowers(entries, Empty)
    {
      var lista := Iterate(entries[i].1);
      if lista.None? {
        return;
      }
      assert entries[i..][1..] == entries[i + 1..];
      var stopped;
      dadosTemp, sucesso, stopped := ExtractItems(lista.value, entries[i].0, dadosTemp, sucesso);
      if stopped {
        return;
      }
      i := i + 1;
    }
  }

  /** The list-format loop over blocks in order. */
  method ExtractBlocks(blocks: seq<Value>) returns (dadosTemp: seq<(string, seq<string>)>, sucesso: nat)
    ensures Tally(dadosTemp, sucesso) == ScanBlocks(blocks, Empty).tally
  {
    dadosTemp, sucesso := [], 0;
    var i := 0;
    while i < |blocks|
      invariant 0 <= i <= |blocks|
      invariant ScanBlocks(blocks[i..], Tally(dadosTemp, sucesso)) == ScanBlocks(blocks, Empty)
    {
      ScanBlocksStep(blocks, i, Tally(dadosTemp, sucesso));
      if blocks[i].Obj? {
        var torre := BlockTower(blocks[i].entries);
        if torre.None? {
          return;
        }
        var acessos := Iterate(GetOr(blocks[i].entries, "acessos", Arr([])));
        if acessos.None? {
          return;
        }
        var stopped;
        dadosTemp, sucesso, stopped := ExtractItems(acessos.value, torre.value, dadosTemp, sucesso);
        if stopped {
          return;
        }
      }
      i := i + 1;
    }
  }

  /** The text-format loop: one line at a time. */
  method ExtractLines(lines: seq<string>) returns (dadosTemp: seq<(string, seq<string>)>, sucesso: nat)
    ensures Tally(dadosTemp, sucesso) == ScanLines(lines, Empty)
  {
    dadosTemp, sucesso := [], 0;
    var i := 0;
    while i < |lines|
      invariant 0 <= i <= |lines|
      invariant ScanLines(lines[i..], Tally(dadosTemp, sucesso)) == ScanLines(lines, Empty)
    {
      ghost var before := Tally(dadosTemp, sucesso);
      ScanLinesStep(lines, i, before);
      var fields := LineFields(lines[i]);
      FileLineCases(before, fields);
      if fields.Some? {
        var ipPuro := CleanIp(Str(fields.value.0));
        if ipPuro.Some? {
          var t := Add(Tally(dadosTemp, sucesso), fields.value.1, ipPuro.value);
          dadosTemp, sucesso := t.groups, t.count;
        }
      }
      assert Tally(dadosTemp, sucesso) == FileLine(before, fields);
      i := i + 1;
    }
  }

  lemma ScanBlocksStep(blocks: seq<Value>, i: nat, t: Tally)
    requires i < |blocks|
    ensures ScanBlocks(blocks[i..], t) ==
      if !blocks[i].Obj? then ScanBlocks(blocks[i + 1..], t)
      else match BlockTower(blocks[i].entries)
        case None => Scan(t, true)
        case Some(torre) =>
          match Iterate(GetOr(blocks[i].entries, "acessos", Arr([])))
          case None => Scan(t, true)
          case Some(items) =>
            var s := ScanItems(items, torre, t);
            if s.stopped then s else ScanBlocks(blocks[i + 1..], s.tally)
  {
    assert blocks[i..][1..] == blocks[i + 1..];
  }

  lemma FileLineCases(t: Tally, f: Option<(string, string)>)
    requires f.Some? ==> Upper(f.value.1) == f.value.1
    ensures f.None? ==> FileLine(t, f) == t
    ensures f.Some? && CleanIp(Str(f.value.0)).None? ==> FileLine(t, f) == t
    ensures f.Some? && CleanIp(Str(f.value.0)).Some? ==>
      FileLine(t, f) == Add(t, f.value.1, CleanIp(Str(f.value.0)).value)
  {
  }

  lemma ScanLinesStep(lines: seq<string>, i: nat, t: Tally)
    requires i < |lines|
    ensures ScanLines(lines[i..], t) == ScanLines(lines[i + 1..], FileLine(t, LineFields(lines[i])))
  {
    assert lines[i..][1..] == lines[i + 1..];
  }

  // ---- Input order and early stops ----

  /** What filing `v` under `torre` adds to tower `k`. */
  function Filed(torre: string, v: Value, k: string): seq<string> {
    if k == torre && CleanIp(v).Some? then [CleanIp(v).value] else []
  }

  lemma FileLookup(t: Tally, torre: string, v: Value, k: string)
    requires Valid(t)
    ensures Lookup(File(t, torre, v).groups, k) == Lookup(t.groups, k) + Filed(torre, v, k)
  {
  }

  /** The addresses of the text lines filed under tower `k`, in line order. */
  function LineAddresses(lines: seq<string>, k: string): seq<string> {
    if lines == [] then []
    else
      var f := LineFields(lines[0]);
      (if f.Some? then Filed(f.value.1, Str(f.value.0), k) else []) + LineAddresses(lines[1..], k)
  }

  /** A text scan appends each tower's addresses in line order. */
  lemma {:induction false} ScanLinesInOrder(lines: seq<string>, t: Tally, k: string)
    requires Valid(t)
    ensures Lookup(ScanLines(lines, t).groups, k) == Lookup(t.groups, k) + LineAddresses(lines, k)
  {
    if lines == [] {
      assert Lookup(t.groups, k) + [] == Lookup(t.groups, k);
    } else {
      var f := LineFields(lines[0]);
      var t' := if f.Some? then File(t, f.value.1, Str(f.value.0)) else t;
      var here := if f.Some? then Filed(f.value.1, Str(f.value.0), k) else [];
      var rest := LineAddresses(lines[1..], k);
      if f.Some? {
        FileLookup(t, f.value.1, Str(f.value.0), k);
      } else {
        assert Lookup(t.groups, k) + here == Lookup(t.groups, k);
      }
      ScanLinesInOrder(lines[1..], t', k);
      ConcatAssoc(Lookup(t.groups, k), here, rest);
      calc {
        Lookup(ScanLines(lines, t).groups, k);
        Lookup(ScanLines(lines[1..], t').groups, k);
        Lookup(t'.groups, k) + rest;
        Lookup(t.groups, k) + here + rest;
        Lookup(t.groups, k) + (here + rest);
        Lookup(t.groups, k) + LineAddresses(lines, k);
      }
    }
  }

  /** The addresses of the items before the first one that is not a dict, in order. */
  function ItemAddresses(items: seq<Value>): seq<string> {
    if items == [] || !items[0].Obj? then []
    else
      var ip := CleanIp(GetOr(items[0].entries, "ip", Null));
      (if ip.Some? then [ip.value] else []) + ItemAddresses(items[1..])
  }

  /** Walking one tower's items appends its addresses in order, and touches no other tower. */
  lemma {:induction false} ScanItemsInOrder(items: seq<Value>, torre: string, t: Tally, k: string)
    requires Valid(t)
    ensures Lookup(ScanItems(items, torre, t).tally.groups, k) == Lookup(t.groups, k) + (if k == torre then ItemAddresses(items) else [])
  {
    if items != [] && items[0].Obj? {
      var t' := File(t, torre, GetOr(items[0].entries, "ip", Null));
      FileLookup(t, torre, GetOr(items[0].entries, "ip", Null), k);
      ScanItemsInOrder(items[1..], torre, t', k);
    }
  }

  /** An item that is not a dict ends the scan with what the items before it gave. */
  lemma {:induction false} ScanItemsStops(items: seq<Value>, torre: string, t: Tally, n: nat)
    requires n < |items| && !items[n].Obj?
    requires forall j :: 0 <= j < n ==> items[j].Obj?
    ensures ScanItems(items, torre, t) == Scan(ScanItems(items[..n], torre, t).tally, true)
  {
    if n > 0 {
      assert items[..n][1..] == items[1..][..n - 1];
      ScanItemsStops(items[1..], torre, File(t, torre, GetOr(items[0].entries, "ip", Null)), n - 1);
    }
  }

  /** Whether some item is not a dict, so that `item.get` raises during the walk. */
  predicate ItemsStop(items: seq<Value>) {
    exists j :: 0 <= j < |items| && !items[j].Obj?
  }

  /** The walk over a tower's items stops exactly when one of them is not a dict. */
  lemma {:induction false} ScanItemsStopped(items: seq<Value>, torre: string, t: Tally)
    ensures ScanItems(items, torre, t).stopped == ItemsStop(items)
  {
    if items != [] {
      if items[0].Obj? {
        ScanItemsStopped(items[1..], torre, File(t, torre, GetOr(items[0].entries, "ip", Null)));
        if ItemsStop(items) {
          var j :| 0 <= j < |items| && !items[j].Obj?;
          assert items[1..][j - 1] == items[j];
        }
        if ItemsStop(items[1..]) {
          var j :| 0 <= j < |items[1..]| && !items[1..][j].Obj?;
          assert items[j + 1] == items[1..][j];
        }
      } else {
        assert !items[0].Obj?;
      }
    }
  }

  /** The addresses a DADOS section files under tower `k`, in order, up to the first exception. */
  function TowerAddresses(entries: seq<(string, Value)>, k: string): seq<string> {
    if entries == [] then []
    else match Iterate(entries[0].1)
      case None => []
      case Some(items) =>
        (if entries[0].0 == k then ItemAddresses(items) else [])
        + (if ItemsStop(items) then [] else TowerAddresses(entries[1..], k))
  }

  /** A DADOS scan files each tower's valid addresses under that tower, in input order. */
  lemma {:induction false} ScanTowersInOrder(entries: seq<(string, Value)>, t: Tally, k: string)
    requires Valid(t)
    ensures Lookup(ScanTowers(entries, t).tally.groups, k) == Lookup(t.groups, k) + TowerAddresses(entries, k)
  {
    if entries == [] {
      assert Lookup(t.groups, k) + [] == Lookup(t.groups, k);
    } else {
      match Iterate(entries[0].1) {
        case None =>
          assert Lookup(t.groups, k) + [] == Lookup(t.groups, k);
        case Some(items) =>
          var torre := entries[0].0;
          var s := ScanItems(items, torre, t);
          var here := if torre == k then ItemAddresses(items) else [];
          ScanItemsInOrder(items, torre, t, k);
          ScanItemsStopped(items, torre, t);
          if s.stopped {
            assert TowerAddresses(entries, k) == here + [];
            assert here + [] == here;
          } else {
            var rest := TowerAddresses(entries[1..], k);
            ScanTowersInOrder(entries[1..], s.tally, k);
            ConcatAssoc(Lookup(t.groups, k), here, rest);
          }
      }
    }
  }

  /** The addresses a block list files under tower `k`, in order, up to the first exception. */
  function BlockAddresses(blocks: seq<Value>, k: string): seq<string> {
    if blocks == [] then []
    else if !blocks[0].Obj? then BlockAddresses(blocks[1..], k)
    else match BlockTower(blocks[0].entries)
      case None => []
      case Some(torre) =>
        match Iterate(GetOr(blocks[0].entries, "acessos", Arr([])))
        case None => []
        case Some(items) =>
          (if torre == k then ItemAddresses(items) else [])
          + (if ItemsStop(items) then [] else BlockAddresses(blocks[1..], k))
  }

  /** A list scan files each block's valid "acessos" addresses under its tower, in input order. */
  lemma {:induction false} ScanBlocksInOrder(blocks: seq<Value>, t: Tally, k: string)
    requires Valid(t)
    ensures Lookup(ScanBlocks(blocks, t).tally.groups, k) == Lookup(t.groups, k) + BlockAddresses(blocks, k)
  {
    if blocks == [] {
      assert Lookup(t.groups, k) + [] == Lookup(t.groups, k);
    } else if !blocks[0].Obj? {
      ScanBlocksInOrder(blocks[1..], t, k);
    } else {
      var entries := blocks[0].entries;
      match BlockTower(entries) {
        case None =>
          assert Lookup(t.groups, k) + [] == Lookup(t.groups, k);
        case Some(torre) =>
          match Iterate(GetOr(entries, "acessos", Arr([]))) {
            case None =>
              assert Lookup(t.groups, k) + [] == Lookup(t.groups, k);
            case Some(items) =>
              var s := ScanItems(items, torre, t);
              var here := if torre == k then ItemAddresses(items) else [];
              ScanItemsInOrder(items, torre, t, k);
              ScanItemsStopped(items, torre, t);
              if s.stopped {
                assert BlockAddresses(blocks, k) == here + [];
                assert here + [] == here;
              } else {
                var rest := BlockAddresses(blocks[1..], k);
                ScanBlocksInOrder(blocks[1..], s.tally, k);
                ConcatAssoc(Lookup(t.groups, k), here, rest);
              }
          }
      }
    }
  }

  /** What `extrair_dados` files under tower `k`, for each of the three formats. */
  lemma ExtractContents(path: string, file: SourceFile, k: string)
    ensures DadosSection(path, file).Some? ==>
      Lookup(Extract(path, file).groups, k) == TowerAddresses(DadosSection(path, file).value, k)
    ensures BlockList(path, file).Some? ==>
      Lookup(Extract(path, file).groups, k) == BlockAddresses(BlockList(path, file).value, k)
    ensures file.Opened? && Lower(Extension(path)) == ".txt" ==>
      Lookup(Extract(path, file).groups, k) == LineAddresses(file.lines, k)
  {
    EmptyValid();
    assert Lookup(Empty.groups, k) == [];
    if DadosSection(path, file).Some? {
      ScanTowersInOrder(DadosSection(path, file).value, Empty, k);
    }
    if BlockList(path, file).Some? {
      ScanBlocksInOrder(BlockList(path, file).value, Empty, k);
    }
    if file.Opened? && Lower(Extension(path)) == ".txt" {
      ScanLinesInOrder(file.lines, Empty, k);
    }
  }
}
