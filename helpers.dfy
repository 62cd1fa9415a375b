/**
 * The inventory helpers of app/utils/helpers.py: cleaning an IP text and walking a
 * JSON inventory tree for (ip, tower) records.
 */
module Helpers {
  import opened Options
  import opened PyText
  import opened JsonValue
  import Ipv4

  /** The cleanup before validation: strip, keep what precedes the first ':', drop every bracket. */
  function CleanIpText(s: string): (r: string)
    ensures ':' !in r && '[' !in r && ']' !in r
  {
    RemoveChar(RemoveChar(TakeBefore(Strip(s), ':'), '['), ']')
  }

  /**
   * `validar_e_normalizar_ip`: `None` for anything that is not a non-empty string, otherwise
   * the cleaned text if `ipaddress.ip_address` accepts it, rendered back with `str`.
   */
  function NormalizeIp(v: Value): (r: Option<string>)
    ensures !v.Str? || v.s == "" ==> r == None
    ensures r.Some? ==> v.Str? && r.value == CleanIpText(v.s) && Ipv4.IsIPv4(r.value)
    ensures v.Str? && v.s != "" && Ipv4.IsIPv4(CleanIpText(v.s)) ==> r.Some?
    ensures r.Some? ==> ':' !in r.value
  {
    if !v.Str? || v.s == "" then None
    else
      var clean := CleanIpText(v.s);
      if Ipv4.IsIPv4(clean) then Some(Ipv4.Canonical(clean)) else None
  }

  /** Feeding a normalised address back in returns it unchanged. */
  lemma NormalizeIpIdempotent(v: Value)
    requires NormalizeIp(v).Some?
    ensures NormalizeIp(Str(NormalizeIp(v).value)) == NormalizeIp(v)
  {
    NormalizeIpOfIPv4(NormalizeIp(v).value);
  }

  /** Valid IPv4 text normalises to itself. */
  lemma NormalizeIpOfIPv4(a: string)
    requires Ipv4.IsIPv4(a)
    ensures NormalizeIp(Str(a)) == Some(a)
  {
    CleanIpTextOfIPv4(a);
    NormalizeIpOfClean(a);
  }

  lemma NormalizeIpOfClean(a: string)
    requires a != "" && Ipv4.IsIPv4(CleanIpText(a))
    ensures NormalizeIp(Str(a)) == Some(CleanIpText(a))
  {
  }

  /** Valid IPv4 text passes the cleanup untouched. */
  lemma CleanIpTextOfIPv4(a: string)
    requires Ipv4.IsIPv4(a)
    ensures CleanIpText(a) == a && a != ""
  {
    Ipv4.IPv4Chars(a);
    forall i | 0 <= i < |a|
      ensures !IsSpace(a[i]) && a[i] != ':' && a[i] != '[' && a[i] != ']'
    {
      assert a[i] == '.' || IsDigit(a[i]);
    }
    StripProperties(a);
    assert ':' !in a;
    assert '[' !in a && ']' !in a;
  }

  /** A found record: the unvalidated `ip` value and the key of the list that held it. */
  datatype Found = Found(ip: Value, torre: string)

  /** The records contributed by the items of a list stored under key `k`: dicts with an "ip" key, nothing else. */
  function ListFinds(k: string, items: seq<Value>): (r: seq<Found>)
    ensures |r| <= |items|
    ensures forall f | f in r :: f.torre == k
  {
    if items == [] then []
    else
      var last := items[|items| - 1];
      ListFinds(k, items[..|items| - 1])
        + (if last.Obj? && Has(last.entries, "ip") then [Found(Get(last.entries, "ip").value, k)] else [])
  }

  /** What `extrair_tarefas_recursivo` returns for a value. */
  function Tasks(d: Value): (r: seq<Found>)
    ensures forall f | f in r :: f.torre != "METADADOS"
    ensures !d.Obj? && !d.Arr? ==> r == []
    decreases d, 1
  {
    match d
    case Obj(es) => EntriesTasks(d, es)
    case Arr(items) => ItemsTasks(d, items)
    case _ => []
  }

  /** The records of some entries of a dict `d`, in iteration order. */
  function EntriesTasks(ghost d: Value, es: seq<(string, Value)>): (r: seq<Found>)
    requires forall i :: 0 <= i < |es| ==> es[i].1 < d
    ensures forall f | f in r :: f.torre != "METADADOS"
    decreases d, 0, |es|
  {
    if es == [] then []
    else
      var (k, v) := es[|es| - 1];
      EntriesTasks(d, es[..|es| - 1])
        + (if k == "METADADOS" then []
           else if v.Arr? then ListFinds(k, v.items)
           else Tasks(v))
  }

  /** The records of some items of a list `d`, each walked in turn. */
  function ItemsTasks(ghost d: Value, items: seq<Value>): (r: seq<Found>)
    requires forall i :: 0 <= i < |items| ==> items[i] < d
    ensures forall f | f in r :: f.torre != "METADADOS"
    decreases d, 0, |items|
  {
    if items == [] then []
    else ItemsTasks(d, items[..|items| - 1]) + Tasks(items[|items| - 1])
  }

  /**
   * `extrair_tarefas_recursivo(dados, contexto_pai)`: the loops that append and extend the
   * local list. The parent context is passed down but never read.
   */
  method ExtractTasks(dados: Value, contextoPai: string := "Desconhecida") returns (found: seq<Found>)
    ensures found == Tasks(dados)
    decreases dados
  {
    found := [];
    match dados {
      case Obj(es) =>
        var i := 0;
        while i < |es|
          invariant 0 <= i <= |es|
          invariant found == EntriesTasks(dados, es[..i])
        {
          var (chave, valor) := es[i];
          EntriesTasksStep(dados, es, i);
          if chave != "METADADOS" {
            if valor.Arr? {
              var part := ExtractList(chave, valor.items);
              found := found + part;
            } else {
              var sub := ExtractTasks(valor, chave);
              found := found + sub;
            }
          }
          i := i + 1;
        }
        assert es[..i] == es;
      case Arr(items) =>
        var i := 0;
        while i < |items|
          invariant 0 <= i <= |items|
          invariant found == ItemsTasks(dados, items[..i])
        {
          ItemsTasksStep(dados, items, i);
          var sub := ExtractTasks(items[i], contextoPai);
          found := found + sub;
          i := i + 1;
        }
        assert items[..i] == items;
      case _ =>
    }
  }

  lemma EntriesTasksStep(d: Value, es: seq<(string, Value)>, i: nat)
    requires i < |es| && forall j :: 0 <= j < |es| ==> es[j].1 < d
    ensures EntriesTasks(d, es[..i + 1]) == EntriesTasks(d, es[..i])
      + (if es[i].0 == "METADADOS" then [] else if es[i].1.Arr? then ListFinds(es[i].0, es[i].1.items) else Tasks(es[i].1))
  {
    assert es[..i + 1][..i] == es[..i];
  }

  lemma ItemsTasksStep(d: Value, items: seq<Value>, i: nat)
    requires i < |items| && forall j :: 0 <= j < |items| ==> items[j] < d
    ensures ItemsTasks(d, items[..i + 1]) == ItemsTasks(d, items[..i]) + Tasks(items[i])
  {
    assert items[..i + 1][..i] == items[..i];
  }

  /** The loop over a list stored under `chave`: each dict item with an "ip" key adds a record. */
  method ExtractList(chave: string, items: seq<Value>) returns (found: seq<Found>)
    ensures found == ListFinds(chave, items)
  {
    found := [];
    var j := 0;
    while j < |items|
      invariant 0 <= j <= |items|
      invariant found == ListFinds(chave, items[..j])
    {
      var item := items[j];
      assert items[..j + 1][..j] == items[..j];
      if item.Obj? && Has(item.entries, "ip") {
        found := found + [Found(Get(item.entries, "ip").value, chave)];
      }
      j := j + 1;
    }
    assert items[..j] == items;
  }

  /** Which list holds the items does not matter to their records. */
  lemma {:induction false} ItemsTasksAnyParent(d1: Value, d2: Value, items: seq<Value>)
    requires forall i :: 0 <= i < |items| ==> items[i] < d1 && items[i] < d2
    ensures ItemsTasks(d1, items) == ItemsTasks(d2, items)
    decreases |items|
  {
    if items != [] {
      ItemsTasksAnyParent(d1, d2, items[..|items| - 1]);
    }
  }

  lemma {:induction false} ItemsTasksConcat(d: Value, a: seq<Value>, b: seq<Value>)
    requires forall i :: 0 <= i < |a| ==> a[i] < d
    requires forall i :: 0 <= i < |b| ==> b[i] < d
    ensures forall i :: 0 <= i < |a + b| ==> (a + b)[i] < d
    ensures ItemsTasks(d, a + b) == ItemsTasks(d, a) + ItemsTasks(d, b)
    decreases |b|
  {
    assert forall i | 0 <= i < |a + b| :: (a + b)[i] == if i < |a| then a[i] else b[i - |a|];
    if b == [] {
      assert a + b == a;
    } else {
      var b' := b[..|b| - 1];
      assert (a + b)[..|a + b| - 1] == a + b';
      ItemsTasksConcat(d, a, b');
    }
  }

  /** Walking a list gives the records of its halves, in order. */
  lemma ListTasksConcat(a: seq<Value>, b: seq<Value>)
    ensures Tasks(Arr(a + b)) == Tasks(Arr(a)) + Tasks(Arr(b))
  {
    var d := Arr(a + b);
    assert forall i | 0 <= i < |a| :: a[i] == d.items[i];
    assert forall i | 0 <= i < |b| :: b[i] == d.items[|a| + i];
    ItemsTasksConcat(d, a, b);
    ItemsTasksAnyParent(Arr(a + b), Arr(a), a);
    ItemsTasksAnyParent(Arr(a + b), Arr(b), b);
  }

  /** Which dict holds the entries does not matter to their records. */
  lemma {:induction false} EntriesTasksAnyParent(d1: Value, d2: Value, es: seq<(string, Value)>)
    requires forall i :: 0 <= i < |es| ==> es[i].1 < d1 && es[i].1 < d2
    ensures EntriesTasks(d1, es) == EntriesTasks(d2, es)
    decreases |es|
  {
    if es != [] {
      EntriesTasksAnyParent(d1, d2, es[..|es| - 1]);
    }
  }

  lemma {:induction false} EntriesTasksConcat(d: Value, a: seq<(string, Value)>, b: seq<(string, Value)>)
    requires forall i :: 0 <= i < |a| ==> a[i].1 < d
    requires forall i :: 0 <= i < |b| ==> b[i].1 < d
    ensures forall i :: 0 <= i < |a + b| ==> (a + b)[i].1 < d
    ensures EntriesTasks(d, a + b) == EntriesTasks(d, a) + EntriesTasks(d, b)
    decreases |b|
  {
    assert forall i | 0 <= i < |a + b| :: (a + b)[i] == if i < |a| then a[i] else b[i - |a|];
    if b == [] {
      assert a + b == a;
    } else {
      var b' := b[..|b| - 1];
      assert (a + b)[..|a + b| - 1] == a + b';
      EntriesTasksConcat(d, a, b');
    }
  }

  /** Walking a dict gives the records of its two runs of entries, in order. */
  lemma DictTasksConcat(a: seq<(string, Value)>, b: seq<(string, Value)>)
    ensures Tasks(Obj(a + b)) == Tasks(Obj(a)) + Tasks(Obj(b))
  {
    var d := Obj(a + b);
    assert forall i | 0 <= i < |a| :: a[i] == d.entries[i];
    assert forall i | 0 <= i < |b| :: b[i] == d.entries[|a| + i];
    EntriesTasksConcat(d, a, b);
    EntriesTasksAnyParent(Obj(a + b), Obj(a), a);
    EntriesTasksAnyParent(Obj(a + b), Obj(b), b);
  }

  /** A list item is walked as if it stood alone. */
  lemma ListItemWalked(x: Value)
    ensures Tasks(Arr([x])) == Tasks(x)
  {
    var d := Arr([x]);
    assert [x][..0] == [];
    assert ItemsTasks(d, []) == [];
    assert ItemsTasks(d, [x]) == ItemsTasks(d, []) + Tasks(x);
  }

  /** A dict entry holding a list yields one record per dict item with an "ip" key, and nothing deeper is visited. */
  lemma ListEntryNotDescended(k: string, items: seq<Value>)
    requires k != "METADADOS"
    ensures Tasks(Obj([(k, Arr(items))])) == ListFinds(k, items)
  {
    var d := Obj([(k, Arr(items))]);
    assert [(k, Arr(items))][..0] == [];
    assert EntriesTasks(d, []) == [];
    assert EntriesTasks(d, [(k, Arr(items))]) == EntriesTasks(d, []) + ListFinds(k, items);
  }

  /** A dict whose key is "METADADOS" contributes nothing, whatever it holds. */
  lemma MetadadosSkipped(v: Value)
    ensures Tasks(Obj([("METADADOS", v)])) == []
  {
    var d := Obj([("METADADOS", v)]);
    assert [("METADADOS", v)][..0] == [];
    assert EntriesTasks(d, []) == [];
    assert EntriesTasks(d, [("METADADOS", v)]) == EntriesTasks(d, []) + [];
  }

  /** A list stored under a key yields a record for exactly its dict items that have "ip". */
  lemma {:induction false} ListFindsCount(k: string, items: seq<Value>)
    ensures |ListFinds(k, items)| == |IpItems(items)|
    decreases |items|
  {
    if items != [] {
      var n := |items| - 1;
      ListFindsCount(k, items[..n]);
      IpItemsSnoc(items);
    }
  }

  /** The positions of the dict items that have an "ip" key. */
  function IpItems(items: seq<Value>): set<nat> {
    set i: nat | i < |items| && items[i].Obj? && Has(items[i].entries, "ip")
  }

  lemma IpItemsSnoc(items: seq<Value>)
    requires items != []
    ensures var n := |items| - 1;
      IpItems(items) == IpItems(items[..n]) + (if items[n].Obj? && Has(items[n].entries, "ip") then {n} else {})
    ensures |items| - 1 !in IpItems(items[..|items| - 1])
  {
    var n := |items| - 1;
    assert forall i | 0 <= i < n :: items[..n][i] == items[i];
  }
}
