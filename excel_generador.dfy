/**
 * The older report writer of app/utils/excel_generador.py: one row per RadioResult, sorted by
 * status text and client count, saved under the given path. The sort it asks for lists "Online"
 * rows before "Offline" rows, although the comment above it promises Offline rows first; both
 * orders are defined here.
 */
module ExcelGenerador {
  import opened Exceptions
  import opened PyText
  import Sorting
  import DataModels
  import ExcelGenerator

  /** One spreadsheet row: IP, Torre, Status, Clientes, Observação, Data/Hora. */
  datatype Linha = Linha(ip: string, torre: string, status: string, clientes: int, observacao: string, dataHora: string)

  /** The row of one result, stamped with the clock reading `now` taken while building it. */
  function LinhaOf(r: DataModels.RadioResult, now: string): (l: Linha)
    reads r
  {
    Linha(r.ip, r.torre, r.status, r.clientes, r.observacao, now)
  }

  /**
   * The list comprehension: one row per result, in order, each copying its result's fields.
   * The clock is read once per row, so `clock` holds one reading for each result.
   */
  function Dados(resultados: seq<DataModels.RadioResult>, clock: seq<string>): (rows: seq<Linha>)
    requires |clock| == |resultados|
    reads set r | r in resultados
    ensures |rows| == |resultados|
    ensures forall i :: 0 <= i < |resultados| ==>
      && rows[i].ip == resultados[i].ip && rows[i].torre == resultados[i].torre
      && rows[i].status == resultados[i].status && rows[i].clientes == resultados[i].clientes
      && rows[i].observacao == resultados[i].observacao && rows[i].dataHora == clock[i]
  {
    if resultados == [] then []
    else [LinhaOf(resultados[0], clock[0])] + Dados(resultados[1..], clock[1..])
  }

  // ---- The order as written ----

  /** `sort_values(by=["Status", "Clientes"], ascending=[False, False])`: status text down, then clients down. */
  predicate LessAsWritten(a: Linha, b: Linha) {
    StrLess(b.status, a.status) || (a.status == b.status && a.clientes > b.clientes)
  }

  lemma LessAsWrittenIsStrictWeakOrder()
    ensures Sorting.StrictWeakOrder(LessAsWritten)
  {
    forall a: Linha, b: Linha | LessAsWritten(a, b)
      ensures !LessAsWritten(b, a)
    {
      StrLessIrreflexive(a.status);
      if StrLess(b.status, a.status) && StrLess(a.status, b.status) {
        StrLessTransitive(a.status, b.status, a.status);
      }
    }
    forall a: Linha, b: Linha, c: Linha | !LessAsWritten(a, b) && !LessAsWritten(b, c)
      ensures !LessAsWritten(a, c)
    {
      StrLessTotal(a.status, b.status);
      StrLessTotal(b.status, c.status);
      StrLessIrreflexive(a.status);
      if StrLess(c.status, a.status) {
        if StrLess(a.status, b.status) {
          if StrLess(b.status, c.status) {
            StrLessTransitive(a.status, b.status, c.status);
            StrLessTransitive(c.status, a.status, c.status);
            StrLessIrreflexive(c.status);
          } else if b.status != c.status {
            StrLessTransitive(c.status, a.status, b.status);
          }
        } else if a.status != b.status {
          StrLessTransitive(c.status, b.status, a.status);
          if StrLess(b.status, c.status) {
            StrLessTransitive(b.status, c.status, b.status);
            StrLessIrreflexive(b.status);
          }
        }
      }
    }
  }

  /** The rows as the sheet lists them: sorted when there are any. */
  function Planilha(resultados: seq<DataModels.RadioResult>, clock: seq<string>): (rows: seq<Linha>)
    requires |clock| == |resultados|
    reads set r | r in resultados
  {
    var dados := Dados(resultados, clock);
    if dados == [] then dados else Sorting.Sort(dados, LessAsWritten)
  }

  /** The sheet holds exactly the results' rows, status text never increasing, and clients never increasing within a status. */
  lemma PlanilhaOrdered(resultados: seq<DataModels.RadioResult>, clock: seq<string>)
    requires |clock| == |resultados|
    ensures multiset(Planilha(resultados, clock)) == multiset(Dados(resultados, clock))
    ensures var rows := Planilha(resultados, clock);
      forall i, j :: 0 <= i < j < |rows| ==>
        StrLess(rows[j].status, rows[i].status) || (rows[i].status == rows[j].status && rows[i].clientes >= rows[j].clientes)
  {
    var rows := Planilha(resultados, clock);
    LessAsWrittenIsStrictWeakOrder();
    Sorting.SortSorted(Dados(resultados, clock), LessAsWritten);
    forall i, j | 0 <= i < j < |rows|
      ensures StrLess(rows[j].status, rows[i].status) || (rows[i].status == rows[j].status && rows[i].clientes >= rows[j].clientes)
    {
      assert !LessAsWritten(rows[j], rows[i]);
      StrLessTotal(rows[i].status, rows[j].status);
    }
  }

  /** As written, every "Online" row comes before every "Offline" row: 'n' sorts after 'f'. */
  lemma OnlineBeforeOfflineAsWritten(resultados: seq<DataModels.RadioResult>, clock: seq<string>, i: nat, j: nat)
    requires |clock| == |resultados|
    requires i < |Planilha(resultados, clock)| && j < |Planilha(resultados, clock)|
    requires Planilha(resultados, clock)[i].status == "Online" && Planilha(resultados, clock)[j].status == "Offline"
    ensures i < j
  {
    OfflineOnlineText();
    if j < i {
      PlanilhaPair(resultados, clock, j, i);
    }
  }

  /** Two rows of the sheet in order: the later one's status is not above the earlier one's. */
  lemma PlanilhaPair(resultados: seq<DataModels.RadioResult>, clock: seq<string>, a: nat, b: nat)
    requires |clock| == |resultados|
    requires a < b < |Planilha(resultados, clock)|
    ensures var rows := Planilha(resultados, clock);
      StrLess(rows[b].status, rows[a].status) || rows[a].status == rows[b].status
  {
    PlanilhaOrdered(resultados, clock);
  }

  /** "Offline" < "Online" as Python compares text: 'f' comes before 'n'. */
  lemma OfflineOnlineText()
    ensures StrLess("Offline", "Online") && !StrLess("Online", "Offline") && "Online" != "Offline"
  {
    assert "Offline"[1..] == "ffline" && "Online"[1..] == "nline";
    assert StrLess("Offline", "Online");
    if StrLess("Online", "Offline") {
      StrLessIrreflexive("Offline");
      StrLessTransitive("Offline", "Online", "Offline");
    }
  }

  // ---- The order the comment describes ----

  /** "First the Offline rows, then by number of clients": Offline rows first, each group by clients down. */
  predicate OfflineFirst(a: Linha, b: Linha) {
    (a.status == "Offline" && b.status != "Offline")
    || ((a.status == "Offline") == (b.status == "Offline") && a.clientes > b.clientes)
  }

  lemma OfflineFirstIsStrictWeakOrder()
    ensures Sorting.StrictWeakOrder(OfflineFirst)
  {
  }

  function PlanilhaIntended(resultados: seq<DataModels.RadioResult>, clock: seq<string>): (rows: seq<Linha>)
    requires |clock| == |resultados|
    reads set r | r in resultados
  {
    var dados := Dados(resultados, clock);
    if dados == [] then dados else Sorting.Sort(dados, OfflineFirst)
  }

  /** Under the intended order the sheet holds the same rows, every Offline row first, clients never increasing within each group. */
  lemma OfflineRowsFirst(resultados: seq<DataModels.RadioResult>, clock: seq<string>)
    requires |clock| == |resultados|
    ensures multiset(PlanilhaIntended(resultados, clock)) == multiset(Dados(resultados, clock))
    ensures var rows := PlanilhaIntended(resultados, clock);
      forall i, j :: 0 <= i < j < |rows| ==>
        && (rows[j].status == "Offline" ==> rows[i].status == "Offline")
        && ((rows[i].status == "Offline") == (rows[j].status == "Offline") ==> rows[i].clientes >= rows[j].clientes)
  {
    var rows := PlanilhaIntended(resultados, clock);
    OfflineFirstIsStrictWeakOrder();
    Sorting.SortSorted(Dados(resultados, clock), OfflineFirst);
    forall i, j | 0 <= i < j < |rows|
      ensures rows[j].status == "Offline" ==> rows[i].status == "Offline"
      ensures (rows[i].status == "Offline") == (rows[j].status == "Offline") ==> rows[i].clientes >= rows[j].clientes
    {
      assert !OfflineFirst(rows[j], rows[i]);
    }
  }

  // ---- Saving ----

  /** `gerar_relatorio`'s result: the given path once saved, else a PermissionError or a RuntimeError. */
  function GerarRelatorio(caminhoSaida: string, saved: Call<()>): (r: Call<string>)
    ensures r.Returns? <==> saved.Returns?
    ensures r.Returns? ==> r.value == caminhoSaida
    ensures r.Raises? ==> (r.error.cls == PermissionError <==> IsA(saved.error.cls, PermissionError))
    ensures r.Raises? ==> r.error.cls == PermissionError || r.error.cls == RuntimeError
  {
    match saved
    case Returns(_) => Returns(caminhoSaida)
    case Raises(e) => Raises(ExcelGenerator.Failure(e))
  }
}
