/**
 * The report writer of app/utils/excel_generator.py: result dicts become rows with defaults,
 * the rows are ordered by status urgency and then by client count, the output name may gain a
 * timestamp, and each written row is coloured by its status. The spreadsheet engines are inputs:
 * what each `to_excel` attempt and the styling pass come to.
 */
module ExcelGenerator {
  import opened Options
  import opened Exceptions
  import opened PyText
  import opened JsonValue
  import Constants
  import Sorting
  import Engine

  /** One spreadsheet row: IP, Torre, Status, Clientes, Observação, Data/Hora. */
  datatype Row = Row(ip: Value, torre: Value, status: Value, clientes: int, observacao: Value, dataHora: Value)

  /** The Python type name `int()` and attribute errors mention. */
  function TypeName(v: Value): string {
    match v
    case Null => "NoneType"
    case Bool(_) => "bool"
    case Num(_) => "int"
    case Str(_) => "str"
    case Arr(_) => "list"
    case Obj(_) => "dict"
  }

  /** `int(v)`: numbers as they are, booleans as 0 or 1, text by the decimal rule, anything else a TypeError. */
  function PyInt(v: Value): (r: Call<int>)
    ensures v.Num? ==> r == Returns(v.n)
    ensures v.Str? ==> (r.Returns? <==> ParseInt(v.s).Some?)
    ensures v.Str? && r.Raises? ==> r.error.cls == ValueError
    ensures (v.Null? || v.Arr? || v.Obj?) ==> r.Raises? && r.error.cls == TypeError
  {
    match v
    case Num(n) => Returns(n)
    case Bool(b) => Returns(if b then 1 else 0)
    case Str(s) =>
      (match ParseInt(s)
       case Some(n) => Returns(n)
       case None => Raises(Error(ValueError, InvalidLiteral(s))))
    case _ => Raises(Error(TypeError, NotANumber(TypeName(v))))
  }

  /** The message of `int(s)` for text that is not a decimal literal. */
  function InvalidLiteral(s: string): string {
    "invalid literal for int() with base 10: " + Repr(s)
  }

  /** The message of `int(v)` for a value of a type that has no integer conversion. */
  function NotANumber(typeName: string): string {
    "int() argument must be a string, a bytes-like object or a real number, not '" + typeName + "'"
  }

  /** The row for one result dict; `now` stands for the clock reading used when there is no "hora". */
  function RowOf(r: Value, now: string): (row: Call<Row>)
    ensures !r.Obj? ==> row.Raises? && row.error.cls == AttributeError
    ensures r.Obj? ==> (row.Returns? <==> PyInt(GetOr(r.entries, "clientes", Num(0))).Returns?)
    ensures row.Raises? ==> row.error.cls in {AttributeError, ValueError, TypeError}
  {
    if !r.Obj? then Raises(Error(AttributeError, "'" + TypeName(r) + "' object has no attribute 'get'"))
    else
      var e := r.entries;
      match PyInt(GetOr(e, "clientes", Num(0)))
      case Raises(err) => Raises(err)
      case Returns(n) =>
        var observacao := if Has(e, "erro") then Get(e, "erro").value else GetOr(e, "observacao", Str(""));
        Returns(Row(GetOr(e, "ip", Str("N/A")), GetOr(e, "torre", Str("N/A")), GetOr(e, "status", Str("Desconhecido")),
                    n, observacao, GetOr(e, "hora", Str(now))))
  }

  /**
   * Each column takes the dict's value when the key is present and its default otherwise;
   * Observação prefers "erro" whenever that key exists, even when it holds None.
   */
  lemma RowFields(r: Value, now: string)
    requires RowOf(r, now).Returns?
    ensures var row := RowOf(r, now).value; var e := r.entries;
      && row.ip == (if Has(e, "ip") then Get(e, "ip").value else Str("N/A"))
      && row.torre == (if Has(e, "torre") then Get(e, "torre").value else Str("N/A"))
      && row.status == (if Has(e, "status") then Get(e, "status").value else Str("Desconhecido"))
      && row.clientes == (if Has(e, "clientes") then PyInt(Get(e, "clientes").value).value else 0)
      && row.observacao == (if Has(e, "erro") then Get(e, "erro").value
                            else if Has(e, "observacao") then Get(e, "observacao").value else Str(""))
      && row.dataHora == (if Has(e, "hora") then Get(e, "hora").value else Str(now))
  {
  }

  /** `f` applied to each element in turn: all the results, or the first error. */
  function Collect<A, B>(s: seq<A>, f: A -> Call<B>): (r: Call<seq<B>>)
    ensures r.Returns? <==> forall i :: 0 <= i < |s| ==> f(s[i]).Returns?
    ensures r.Returns? ==> |r.value| == |s| && forall i :: 0 <= i < |s| ==> r.value[i] == f(s[i]).value
    ensures r.Raises? ==> exists i :: 0 <= i < |s| && f(s[i]) == Raises(r.error)
  {
    if s == [] then Returns([])
    else
      var init := s[..|s| - 1];
      assert forall i :: 0 <= i < |init| ==> init[i] == s[i];
      match Collect(init, f)
      case Raises(err) => Raises(err)
      case Returns(done) =>
        match f(s[|s| - 1])
        case Raises(err) => Raises(err)
        case Returns(y) => Returns(done + [y])
  }

  /** Once an element fails, collecting any longer prefix fails with its error. */
  lemma {:induction false} CollectFailsAt<A, B>(s: seq<A>, f: A -> Call<B>, i: nat)
    requires i < |s| && Collect(s[..i], f).Returns? && f(s[i]).Raises?
    ensures Collect(s, f) == Raises(f(s[i]).error)
    decreases |s|
  {
    var n := |s| - 1;
    if i < n {
      assert s[..n][..i] == s[..i];
      CollectFailsAt(s[..n], f, i);
    } else {
      assert s[..n] == s[..i];
    }
  }

  /** The rows of all results, or the first result's error. */
  function Rows(results: seq<Value>, now: string): (r: Call<seq<Row>>)
    ensures r.Returns? <==> forall i :: 0 <= i < |results| ==> RowOf(results[i], now).Returns?
    ensures r.Returns? ==> |r.value| == |results| && forall i :: 0 <= i < |results| ==> r.value[i] == RowOf(results[i], now).value
    ensures r.Raises? ==> exists i :: 0 <= i < |results| && RowOf(results[i], now) == Raises(r.error)
  {
    Collect(results, v => RowOf(v, now))
  }

  // ---- Ordering ----

  /** The `_status_order` column: the STATUS_PRIORITY rank of a text status, 999 for anything else. */
  function RankOf(status: Value): (r: nat)
    ensures r == 999 <==> !(status.Str? && status.s in Constants.STATUS_PRIORITY)
  {
    if status.Str? && status.s in Constants.STATUS_PRIORITY then
      assert Constants.STATUS_PRIORITY[status.s] <= 5 by { Constants.PriorityTableShape(); PriorityBound(status.s); }
      Constants.STATUS_PRIORITY[status.s]
    else 999
  }

  lemma PriorityBound(s: string)
    requires s in Constants.STATUS_PRIORITY
    ensures Constants.STATUS_PRIORITY[s] <= 5
  {
    assert Constants.STATUS_PRIORITY.Keys == {"Erro", "Timeout", "Offline", "Erro Auth", "Erro SSH", "Online"};
  }

  /** `sort_values(by=["_status_order", "Clientes"], ascending=[True, False])`: rank up, then clients down. */
  predicate RowBefore(a: Row, b: Row) {
    RankOf(a.status) < RankOf(b.status) || (RankOf(a.status) == RankOf(b.status) && a.clientes > b.clientes)
  }

  lemma RowBeforeIsStrictWeakOrder()
    ensures Sorting.StrictWeakOrder(RowBefore)
  {
  }

  /** The rows in the order the report lists them. */
  function Ordered(rows: seq<Row>): seq<Row> {
    Sorting.Sort(rows, RowBefore)
  }

  /** The ordered rows are the same rows, ranks never decrease, and within a rank clients never increase. */
  lemma OrderedRows(rows: seq<Row>)
    ensures multiset(Ordered(rows)) == multiset(rows)
    ensures forall i, j :: 0 <= i < j < |rows| ==>
      RankOf(Ordered(rows)[i].status) < RankOf(Ordered(rows)[j].status) ||
      (RankOf(Ordered(rows)[i].status) == RankOf(Ordered(rows)[j].status) && Ordered(rows)[i].clientes >= Ordered(rows)[j].clientes)
  {
    RowBeforeIsStrictWeakOrder();
    Sorting.SortSorted(rows, RowBefore);
  }

  // ---- The output name ----

  /** `Path.suffix` of a file name: from the last dot, when it is neither the first nor the last character. */
  function SuffixOf(name: string): (r: string)
    ensures r == [] || r[0] == '.'
  {
    match LastIndex(name, '.')
    case Some(i) => if 0 < i < |name| - 1 then name[i..] else []
    case None => []
  }

  /** `Path.stem`: the file name without its suffix. */
  function StemOf(name: string): (r: string)
    ensures r + SuffixOf(name) == name
  {
    match LastIndex(name, '.')
    case Some(i) => if 0 < i < |name| - 1 then name[..i] else name
    case None => name
  }

  /** The path the report is saved under: `parent / f"{stem}_{timestamp}{suffix}"`, unless the stem is "relatório". */
  function OutputPath(caminho: string, incluirTimestamp: bool, timestamp: string): (r: string)
    ensures !incluirTimestamp || StemOf(AfterLast(caminho, '/')) == "relatório" ==> r == caminho
    ensures UpToLast(r, '/') == UpToLast(caminho, '/') || '/' in timestamp
  {
    var name := AfterLast(caminho, '/');
    if incluirTimestamp && StemOf(name) != "relatório" then
      var novoNome := StemOf(name) + "_" + timestamp + SuffixOf(name);
      if '/' !in timestamp then
        assert '/' !in novoNome by { NoSeparatorIn(name, timestamp); }
        AfterSeparator(UpToLast(caminho, '/'), novoNome, '/');
        UpToLast(caminho, '/') + novoNome
      else UpToLast(caminho, '/') + novoNome
    else caminho
  }

  lemma NoSeparatorIn(name: string, timestamp: string)
    requires '/' !in name && '/' !in timestamp
    ensures '/' !in StemOf(name) + "_" + timestamp + SuffixOf(name)
  {
    var stem, suffix := StemOf(name), SuffixOf(name);
    assert stem + suffix == name;
    assert forall k :: 0 <= k < |stem| ==> stem[k] == name[k];
    assert forall k :: 0 <= k < |suffix| ==> suffix[k] == name[|stem| + k];
  }

  /** A timestamped name keeps its folder and extension, and its stem is the old stem, '_', the timestamp. */
  lemma TimestampedName(caminho: string, timestamp: string)
    requires StemOf(AfterLast(caminho, '/')) != "relatório"
    requires SuffixOf(AfterLast(caminho, '/')) != []
    requires '/' !in timestamp && '.' !in timestamp
    ensures var out := OutputPath(caminho, true, timestamp);
      && UpToLast(out, '/') == UpToLast(caminho, '/')
      && SuffixOf(AfterLast(out, '/')) == SuffixOf(AfterLast(caminho, '/'))
      && StemOf(AfterLast(out, '/')) == StemOf(AfterLast(caminho, '/')) + "_" + timestamp
  {
    var name := AfterLast(caminho, '/');
    var stem, suffix := StemOf(name), SuffixOf(name);
    var novoNome := stem + "_" + timestamp + suffix;
    NoSeparatorIn(name, timestamp);
    AfterSeparator(UpToLast(caminho, '/'), novoNome, '/');
    var i := LastIndex(name, '.').value;
    assert suffix == name[i..] && stem == name[..i];
    assert '.' !in suffix[1..] by { assert suffix[1..] == name[i + 1..]; }
    var j := |stem| + 1 + |timestamp|;
    assert novoNome[j..] == suffix;
    LastIndexOfSuffix(stem + "_" + timestamp, suffix);
  }

  /** The last dot of `head + suffix`, where the suffix is a dot and dot-free text, is the suffix's dot. */
  lemma LastIndexOfSuffix(head: string, suffix: string)
    requires |suffix| >= 2 && suffix[0] == '.' && '.' !in suffix[1..]
    requires |head| > 0
    ensures LastIndex(head + suffix, '.') == Some(|head|)
    ensures SuffixOf(head + suffix) == suffix && StemOf(head + suffix) == head
    decreases |suffix|
  {
    var s := head + suffix;
    var last := suffix[|suffix| - 1];
    assert last in suffix[1..];
    assert s[..|s| - 1] == head + suffix[..|suffix| - 1];
    if |suffix| > 2 {
      assert suffix[..|suffix| - 1][1..] == suffix[1..|suffix| - 1];
      assert forall k :: 1 <= k < |suffix| - 1 ==> suffix[k] in suffix[1..];
      LastIndexOfSuffix(head, suffix[..|suffix| - 1]);
    } else {
      assert s[..|s| - 1] == head + ".";
    }
    assert s[|head|..] == suffix;
  }

  // ---- Saving ----

  /** `to_excel` with openpyxl, falling back to xlsxwriter when openpyxl cannot be imported. */
  function Saved(openpyxl: Call<()>, xlsxwriter: Call<()>): (r: Call<()>)
    ensures r.Raises? ==> openpyxl.Raises?
    ensures !(openpyxl.Raises? && IsA(openpyxl.error.cls, ImportError)) ==> r == openpyxl
    ensures openpyxl.Raises? && IsA(openpyxl.error.cls, ImportError) ==> r == xlsxwriter
  {
    if openpyxl.Raises? && IsA(openpyxl.error.cls, ImportError) then xlsxwriter else openpyxl
  }

  /** What escapes `gerar_relatorio` when `e` is raised inside it. */
  function Failure(e: Error): (r: Error)
    ensures r.cls == PermissionError <==> IsA(e.cls, PermissionError)
    ensures r.cls == PermissionError || r.cls == RuntimeError
  {
    if IsA(e.cls, PermissionError) then Error(PermissionError, "Não foi possível salvar o arquivo. Feche o Excel e tente novamente.")
    else Error(RuntimeError, "Falha na geração do relatório: " + e.msg)
  }

  /** `gerar_relatorio`'s result: the saved path, "" for no results, or a PermissionError or RuntimeError. */
  function Report(results: seq<Value>, caminho: string, incluirTimestamp: bool, now: string, timestamp: string,
                  openpyxl: Call<()>, xlsxwriter: Call<()>): (r: Call<string>)
    ensures results == [] ==> r == Returns("")
    ensures r.Raises? ==> r.error.cls == PermissionError || r.error.cls == RuntimeError
    ensures r.Returns? && results != [] ==> r.value == OutputPath(caminho, incluirTimestamp, timestamp)
    ensures r.Returns? <==> Rows(results, now).Returns? && (results == [] || Saved(openpyxl, xlsxwriter).Returns?)
    ensures Rows(results, now).Raises? ==> r == Raises(Failure(Rows(results, now).error))
  {
    match Rows(results, now)
    case Raises(e) => Raises(Failure(e))
    case Returns(rows) =>
      if rows == [] then Returns("")
      else match Saved(openpyxl, xlsxwriter)
        case Raises(e) => Raises(Failure(e))
        case Returns(_) => Returns(OutputPath(caminho, incluirTimestamp, timestamp))
  }

  // ---- Row colours ----

  /** `status_colors`. */
  const STATUS_COLORS: map<string, string> := map[
    "Online" := "C6EFCE",
    "Offline" := "FFC7CE",
    "Erro" := "FFEB9C",
    "Timeout" := "FFE699",
    "Erro Auth" := "FFC7CE",
    "Erro SSH" := "FFC7CE"
  ]

  /** `status_colors.get(status, "FFFFFF")`. */
  function StatusFill(status: Value): (r: string)
    ensures |r| == 6
    ensures r == "FFFFFF" <==> !(status.Str? && status.s in STATUS_COLORS)
  {
    if status.Str? && status.s in STATUS_COLORS then
      assert STATUS_COLORS[status.s] != "FFFFFF" && |STATUS_COLORS[status.s]| == 6 by { ColourValues(status.s); }
      STATUS_COLORS[status.s]
    else "FFFFFF"
  }

  lemma ColourValues(s: string)
    requires s in STATUS_COLORS
    ensures STATUS_COLORS[s] != "FFFFFF" && |STATUS_COLORS[s]| == 6
  {
    assert STATUS_COLORS.Keys == {"Online", "Offline", "Erro", "Timeout", "Erro Auth", "Erro SSH"};
  }

  /** Exactly the ranked statuses are coloured, so "Desconhecido" and unknown statuses stay white. */
  lemma ColoursMatchRanks(status: Value)
    ensures StatusFill(status) != "FFFFFF" <==> RankOf(status) != 999
  {
    assert STATUS_COLORS.Keys == Constants.STATUS_PRIORITY.Keys;
  }

  // ---- The whole call ----

  /** The styling pass over the saved rows: each row's colour is its status's, white by default. */
  method AplicarFormatacao(written: seq<Row>) returns (fills: seq<string>)
    ensures |fills| == |written|
    ensures forall i :: 0 <= i < |written| ==> fills[i] == StatusFill(written[i].status)
  {
    fills := [];
    var k := 0;
    while k < |written|
      invariant 0 <= k <= |written|
      invariant |fills| == k
      invariant forall j :: 0 <= j < k ==> fills[j] == StatusFill(written[j].status)
    {
      fills := fills + [StatusFill(written[k].status)];
      k := k + 1;
    }
  }

  /** The loop that turns result dicts into rows, stopping at the first that fails. */
  method BuildRows(resultados: seq<Value>, now: string) returns (r: Call<seq<Row>>)
    ensures r == Rows(resultados, now)
  {
    var dados: seq<Row> := [];
    var f := v => RowOf(v, now);
    var i := 0;
    while i < |resultados|
      invariant 0 <= i <= |resultados|
      invariant Collect(resultados[..i], f) == Returns(dados)
    {
      var row := RowOf(resultados[i], now);
      assert resultados[..i + 1][..i] == resultados[..i];
      if row.Raises? {
        CollectFailsAt(resultados, f, i);
        return Raises(row.error);
      }
      dados := dados + [row.value];
      i := i + 1;
    }
    assert resultados[..i] == resultados;
    return Returns(dados);
  }

  /**
   * `gerar_relatorio`: build the rows, order them, save them, then colour each saved row.
   * `written` is what the saved sheet holds; `fills` the colours the styling pass gives its rows,
   * empty when it fails (its errors are logged and dropped).
   */
  method GerarRelatorio(resultados: seq<Value>, caminhoSaida: string, incluirTimestamp: bool, now: string, timestamp: string,
                        openpyxl: Call<()>, xlsxwriter: Call<()>, styling: Call<()>)
    returns (r: Call<string>, written: seq<Row>, fills: seq<string>)
    ensures r == Report(resultados, caminhoSaida, incluirTimestamp, now, timestamp, openpyxl, xlsxwriter)
    ensures r.Returns? && resultados != [] ==> written == Ordered(Rows(resultados, now).value)
    ensures r.Raises? || resultados == [] ==> written == []
    ensures |fills| == (if styling.Returns? then |written| else 0)
    ensures forall i :: 0 <= i < |fills| ==> fills[i] == StatusFill(written[i].status)
  {
    written, fills := [], [];
    var dados := BuildRows(resultados, now);
    if dados.Raises? {
      r := Raises(Failure(dados.error));
      return;
    }
    if dados.value == [] {
      r := Returns("");
      return;
    }
    var df := Ordered(dados.value);
    var caminho := OutputPath(caminhoSaida, incluirTimestamp, timestamp);
    var saved := Saved(openpyxl, xlsxwriter);
    if saved.Raises? {
      r := Raises(Failure(saved.error));
      return;
    }
    written := df;
    if styling.Returns? {
      fills := AplicarFormatacao(written);
    }
    r := Returns(caminho);
  }

  // ---- Engine reports in the sheet ----

  /**
   * A report from the processing engine becomes a row with no tower ("N/A"), its error (or None)
   * as the observation, and, unless the device is Online, the unknown-status rank 999.
   */
  lemma EngineReportRow(rep: Engine.Report, now: string)
    requires rep.status == "Online" || rep.status == "Falha"
    ensures var row := RowOf(Engine.ReportValue(rep), now);
      && row.Returns?
      && row.value == Row(Str(rep.ip), Str("N/A"), Str(rep.status), rep.clientes,
                          if rep.erro.Some? then Str(rep.erro.value) else Null, Str(rep.hora))
      && RankOf(row.value.status) == (if rep.status == "Online" then 5 else 999)
  {
    var v := Engine.ReportValue(rep);
    var e := v.entries;
    Engine.ReportValueFields(rep);
    Engine.ReportValueLacks(rep);
    assert Has(e, "clientes");
    assert GetOr(e, "clientes", Num(0)) == Num(rep.clientes);
    assert RowOf(v, now).Returns?;
    RowFields(v, now);
    EngineStatusRank(rep.status);
  }

  lemma EngineStatusRank(status: string)
    requires status == "Online" || status == "Falha"
    ensures RankOf(Str(status)) == (if status == "Online" then 5 else 999)
  {
    assert Constants.STATUS_PRIORITY.Keys == {"Erro", "Timeout", "Offline", "Erro Auth", "Erro SSH", "Online"};
  }
}
