/** The client side of the listing request
    (frontend/src/domain/vehicle/services/vehicleService.ts): the query
    string is built by appending one key after the other, each only when its
    value is set, and the server reads the same values back. The HTTP call
    itself is not part of this model. */
module VehicleService {
  import opened Wrappers
  import opened Text
  import opened Arrays
  import opened VehicleTypes
  import opened VehicleLogic
  import opened VehicleController

  /** A number the filter panel stores: what `parseInt` or `parseFloat`
      read, whole numbers here, or `NaN` when they read nothing. */
  datatype JsNumber = NaN | Finite(value: int)

  /** The filters of the listing page. */
  datatype ClientFilters = ClientFilters(
    marcas: Option<seq<string>>,
    modelos: Option<seq<string>>,
    anoMin: Option<JsNumber>,
    anoMax: Option<JsNumber>,
    precoMin: Option<JsNumber>,
    precoMax: Option<JsNumber>,
    cambios: Option<seq<string>>)

  /** A stored number that is not `NaN`. */
  function Numeric(x: Option<JsNumber>): Option<int> {
    if x.Some? && x.value.Finite? then Some(x.value.value) else None
  }

  datatype ClientListParams = ClientListParams(
    page: Option<int>,
    pageSize: Option<int>,
    filters: Option<ClientFilters>,
    sortBy: Option<SortOrder>)

  /** `URLSearchParams`: the pairs appended so far, in order. */
  class SearchParams {
    var pairs: seq<(string, string)>

    constructor ()
      ensures pairs == []
    {
      pairs := [];
    }

    method Append(key: string, value: string)
      modifies this
      ensures pairs == old(pairs) + [(key, value)]
    {
      pairs := pairs + [(key, value)];
    }
  }

  /** The keys of the listing query, in the order `list` appends them. */
  datatype QueryKey =
    | PageKey | PageSizeKey | SortByKey | MarcasKey | ModelosKey
    | AnoMinKey | AnoMaxKey | PrecoMinKey | PrecoMaxKey | CambiosKey

  function Name(k: QueryKey): string {
    match k
    case PageKey => "page"
    case PageSizeKey => "pageSize"
    case SortByKey => "sortBy"
    case MarcasKey => "marcas"
    case ModelosKey => "modelos"
    case AnoMinKey => "anoMin"
    case AnoMaxKey => "anoMax"
    case PrecoMinKey => "precoMin"
    case PrecoMaxKey => "precoMax"
    case CambiosKey => "cambios"
  }

  /** A number is sent when it is set and truthy, that is, not 0; a `NaN`,
      falsy too, is dropped before, by `Numeric`. */
  function NumberParam(x: Option<int>): Option<string> {
    if x.Some? && x.value != 0 then Some(IntegerString(x.value)) else None
  }

  /** A list is sent when it is set and not empty, joined by commas. */
  function ListParam(x: Option<seq<string>>): Option<string> {
    if x.Some? && |x.value| > 0 then Some(Join(x.value, ',')) else None
  }

  /** The value sent for one key, if any. */
  function ParamValue(p: ClientListParams, k: QueryKey): Option<string> {
    var f := p.filters;
    match k
    case PageKey => NumberParam(p.page)
    case PageSizeKey => NumberParam(p.pageSize)
    case SortByKey => if p.sortBy.Some? then Some(SortOrderValue(p.sortBy.value)) else None
    case MarcasKey => if f.Some? then ListParam(f.value.marcas) else None
    case ModelosKey => if f.Some? then ListParam(f.value.modelos) else None
    case AnoMinKey => if f.Some? then NumberParam(Numeric(f.value.anoMin)) else None
    case AnoMaxKey => if f.Some? then NumberParam(Numeric(f.value.anoMax)) else None
    case PrecoMinKey => if f.Some? then NumberParam(Numeric(f.value.precoMin)) else None
    case PrecoMaxKey => if f.Some? then NumberParam(Numeric(f.value.precoMax)) else None
    case CambiosKey => if f.Some? then ListParam(f.value.cambios) else None
  }

  /** The pair a key contributes: none, or its name and value. */
  function Emit(p: ClientListParams, k: QueryKey): seq<(string, string)> {
    var v := ParamValue(p, k);
    if v.Some? then [(Name(k), v.value)] else []
  }

  /** The pairs `list` sends, key after key in its fixed order. */
  function ListPairs(p: ClientListParams): seq<(string, string)> {
    Emit(p, PageKey) + Emit(p, PageSizeKey) + Emit(p, SortByKey) + Emit(p, MarcasKey)
    + Emit(p, ModelosKey) + Emit(p, AnoMinKey) + Emit(p, AnoMaxKey) + Emit(p, PrecoMinKey)
    + Emit(p, PrecoMaxKey) + Emit(p, CambiosKey)
  }

  /** `URLSearchParams.get`: the value of the first pair with the key. */
  function Lookup(pairs: seq<(string, string)>, key: string): (r: Option<string>)
    ensures r.Some? <==> exists i :: 0 <= i < |pairs| && pairs[i].0 == key
  {
    if pairs == [] then None
    else if pairs[0].0 == key then Some(pairs[0].1)
    else
      var r := Lookup(pairs[1..], key);
      assert forall i :: 1 <= i < |pairs| ==> pairs[i] == pairs[1..][i - 1];
      r
  }

  // ------------------------------------------------------------ list

  /** `if (value) queryParams.append(key, value.toString())` for one key:
      its pair when its value is set, nothing otherwise. */
  method AppendIfSet(q: SearchParams, p: ClientListParams, k: QueryKey)
    modifies q
    ensures q.pairs == old(q.pairs) + Emit(p, k)
  {
    var value := ParamValue(p, k);
    if value.Some? {
      q.Append(Name(k), value.value);
    }
  }

  /** `list`: one append per key whose value is set, in the fixed order. */
  method List(p: ClientListParams) returns (query: seq<(string, string)>)
    ensures query == ListPairs(p)
  {
    var q := new SearchParams();
    AppendIfSet(q, p, PageKey);
    assert q.pairs == Emit(p, PageKey);
    AppendIfSet(q, p, PageSizeKey);
    AppendIfSet(q, p, SortByKey);
    AppendIfSet(q, p, MarcasKey);
    AppendIfSet(q, p, ModelosKey);
    AppendIfSet(q, p, AnoMinKey);
    AppendIfSet(q, p, AnoMaxKey);
    AppendIfSet(q, p, PrecoMinKey);
    AppendIfSet(q, p, PrecoMaxKey);
    AppendIfSet(q, p, CambiosKey);
    query := q.pairs;
  }

  // ------------------------------------------------------------ lookup

  lemma {:induction false} LookupAppend(a: seq<(string, string)>, b: seq<(string, string)>, key: string)
    ensures Lookup(a + b, key) == if Lookup(a, key).Some? then Lookup(a, key) else Lookup(b, key)
  {
    if a == [] {
      assert a + b == b;
    } else {
      assert (a + b)[1..] == a[1..] + b;
      LookupAppend(a[1..], b, key);
    }
  }

  /** Different keys have different names. */
  lemma NameInjective(k: QueryKey, k': QueryKey)
    requires Name(k) == Name(k')
    ensures k == k'
  {
  }

  /** Looking a key up in the pair of another key finds nothing. */
  lemma LookupEmit(p: ClientListParams, k: QueryKey, k': QueryKey)
    ensures Lookup(Emit(p, k'), Name(k)) == if k == k' then ParamValue(p, k) else None
  {
    if k != k' && Emit(p, k') != [] {
      if Name(k') == Name(k) {
        NameInjective(k, k');
      }
    }
  }

  /** The query holds, for every key, exactly the value `list` sends for
      it: its own value when set, and no pair at all otherwise. */
  lemma ListLookup(p: ClientListParams, k: QueryKey)
    ensures Lookup(ListPairs(p), Name(k)) == ParamValue(p, k)
  {
    var key := Name(k);
    var a0 := Emit(p, PageKey);
    var a1 := a0 + Emit(p, PageSizeKey);
    var a2 := a1 + Emit(p, SortByKey);
    var a3 := a2 + Emit(p, MarcasKey);
    var a4 := a3 + Emit(p, ModelosKey);
    var a5 := a4 + Emit(p, AnoMinKey);
    var a6 := a5 + Emit(p, AnoMaxKey);
    var a7 := a6 + Emit(p, PrecoMinKey);
    var a8 := a7 + Emit(p, PrecoMaxKey);
    LookupEmit(p, k, PageKey);
    LookupAppend(a0, Emit(p, PageSizeKey), key);
    LookupEmit(p, k, PageSizeKey);
    LookupAppend(a1, Emit(p, SortByKey), key);
    LookupEmit(p, k, SortByKey);
    LookupAppend(a2, Emit(p, MarcasKey), key);
    LookupEmit(p, k, MarcasKey);
    LookupAppend(a3, Emit(p, ModelosKey), key);
    LookupEmit(p, k, ModelosKey);
    LookupAppend(a4, Emit(p, AnoMinKey), key);
    LookupEmit(p, k, AnoMinKey);
    LookupAppend(a5, Emit(p, AnoMaxKey), key);
    LookupEmit(p, k, AnoMaxKey);
    LookupAppend(a6, Emit(p, PrecoMinKey), key);
    LookupEmit(p, k, PrecoMinKey);
    LookupAppend(a7, Emit(p, PrecoMaxKey), key);
    LookupEmit(p, k, PrecoMaxKey);
    LookupAppend(a8, Emit(p, CambiosKey), key);
    LookupEmit(p, k, CambiosKey);
  }

  // ------------------------------------------------------------ order

  /** Where a key's name sits in the order `list` appends keys in. */
  function NameRank(name: string): nat {
    if name == "page" then 0 else if name == "pageSize" then 1
    else if name == "sortBy" then 2 else if name == "marcas" then 3
    else if name == "modelos" then 4 else if name == "anoMin" then 5
    else if name == "anoMax" then 6 else if name == "precoMin" then 7
    else if name == "precoMax" then 8 else if name == "cambios" then 9
    else 10
  }

  predicate Ordered(r: seq<(string, string)>) {
    forall i, j :: 0 <= i < j < |r| ==> NameRank(r[i].0) < NameRank(r[j].0)
  }

  /** The ranks of `r` rise strictly and stay below `n`, read from the
      last pair back. */
  predicate RisingBelow(r: seq<(string, string)>, n: nat)
    decreases |r|
  {
    r == [] || (NameRank(r[|r| - 1].0) < n && RisingBelow(r[..|r| - 1], NameRank(r[|r| - 1].0)))
  }

  lemma {:induction false} RisingBelowWeaken(r: seq<(string, string)>, n: nat, m: nat)
    requires RisingBelow(r, n) && n <= m
    ensures RisingBelow(r, m)
  {
  }

  lemma {:induction false} RisingBelowOrdered(r: seq<(string, string)>, n: nat)
    requires RisingBelow(r, n)
    ensures Ordered(r) && forall i :: 0 <= i < |r| ==> NameRank(r[i].0) < n
    decreases |r|
  {
    if r != [] {
      var init := r[..|r| - 1];
      RisingBelowOrdered(init, NameRank(r[|r| - 1].0));
      assert forall i :: 0 <= i < |init| ==> r[i] == init[i];
    }
  }

  /** The position of each key in that order. */
  function Rank(k: QueryKey): nat {
    match k
    case PageKey => 0
    case PageSizeKey => 1
    case SortByKey => 2
    case MarcasKey => 3
    case ModelosKey => 4
    case AnoMinKey => 5
    case AnoMaxKey => 6
    case PrecoMinKey => 7
    case PrecoMaxKey => 8
    case CambiosKey => 9
  }

  /** `e` is empty or one pair of rank `n`. */
  predicate RankedPair(e: seq<(string, string)>, n: nat) {
    e == [] || (|e| == 1 && NameRank(e[0].0) == n)
  }

  /** The pair a key emits, if any, carries that key's rank. */
  lemma EmitRank(p: ClientListParams, k: QueryKey)
    ensures RankedPair(Emit(p, k), Rank(k))
  {
  }

  /** Appending a pair of higher rank keeps the ranks rising. */
  lemma RisingStep(a: seq<(string, string)>, e: seq<(string, string)>, n: nat)
    requires RisingBelow(a, n) && RankedPair(e, n)
    ensures RisingBelow(a + e, n + 1)
  {
    if e == [] {
      assert a + e == a;
      RisingBelowWeaken(a, n, n + 1);
    } else {
      assert (a + e)[..|a + e| - 1] == a;
    }
  }

  /** Ten pieces, each empty or one pair of the next rank, joined in order,
      rise strictly. */
  lemma RisingChain(e0: seq<(string, string)>, e1: seq<(string, string)>, e2: seq<(string, string)>,
                    e3: seq<(string, string)>, e4: seq<(string, string)>, e5: seq<(string, string)>,
                    e6: seq<(string, string)>, e7: seq<(string, string)>, e8: seq<(string, string)>,
                    e9: seq<(string, string)>)
    requires RankedPair(e0, 0) && RankedPair(e1, 1) && RankedPair(e2, 2) && RankedPair(e3, 3)
    requires RankedPair(e4, 4) && RankedPair(e5, 5) && RankedPair(e6, 6) && RankedPair(e7, 7)
    requires RankedPair(e8, 8) && RankedPair(e9, 9)
    ensures RisingBelow(e0 + e1 + e2 + e3 + e4 + e5 + e6 + e7 + e8 + e9, 10)
  {
    RisingStep([], e0, 0);
    assert [] + e0 == e0;
    RisingStep(e0, e1, 1);
    RisingPair(e0 + e1, e2, e3, 2);
    RisingPair(e0 + e1 + e2 + e3, e4, e5, 4);
    RisingPair(e0 + e1 + e2 + e3 + e4 + e5, e6, e7, 6);
    RisingPair(e0 + e1 + e2 + e3 + e4 + e5 + e6 + e7, e8, e9, 8);
  }

  lemma RisingPair(a: seq<(string, string)>, e: seq<(string, string)>, f: seq<(string, string)>, n: nat)
    requires RisingBelow(a, n) && RankedPair(e, n) && RankedPair(f, n + 1)
    ensures RisingBelow(a + e + f, n + 2)
  {
    RisingStep(a, e, n);
    RisingStep(a + e, f, n + 1);
  }

  /** The keys of the query come in the fixed order, each at most once. */
  lemma ListOrdered(p: ClientListParams)
    ensures Ordered(ListPairs(p))
  {
    EmitRank(p, PageKey);
    EmitRank(p, PageSizeKey);
    EmitRank(p, SortByKey);
    EmitRank(p, MarcasKey);
    EmitRank(p, ModelosKey);
    EmitRank(p, AnoMinKey);
    EmitRank(p, AnoMaxKey);
    EmitRank(p, PrecoMinKey);
    EmitRank(p, PrecoMaxKey);
    EmitRank(p, CambiosKey);
    RisingChain(Emit(p, PageKey), Emit(p, PageSizeKey), Emit(p, SortByKey), Emit(p, MarcasKey),
                Emit(p, ModelosKey), Emit(p, AnoMinKey), Emit(p, AnoMaxKey), Emit(p, PrecoMinKey),
                Emit(p, PrecoMaxKey), Emit(p, CambiosKey));
    RisingBelowOrdered(ListPairs(p), 10);
  }

  // ------------------------------------------------------------ server reading

  /** The number the client meant: a set, non-zero number, or nothing. */
  function SentNumber(x: Option<int>): Option<int> {
    if x.Some? && x.value != 0 then x else None
  }

  /** A sent number is read by the server as that number; an unsent one
      falls back to the server's default. */
  lemma ServerReadsNumber(x: Option<int>, d: int)
    ensures IntOr(NumberParam(x), d) == SentNumber(x).GetOr(d)
    ensures YearValue(NumberParam(x)) == SentNumber(x)
  {
    if x.Some? && x.value != 0 {
      ParseIntIntegerString(x.value);
    } else {
      ParseIntBlank("");
    }
  }

  /** A list the server can read back: its entries hold no comma and no
      surrounding blanks, and it is not the one empty entry, which joins to
      the empty string. */
  predicate Readable(xs: seq<string>) {
    xs != [""] && forall k :: 0 <= k < |xs| ==> ',' !in xs[k] && Trim(xs[k]) == xs[k]
  }

  /** The list the client meant: a set, non-empty list, or nothing. */
  function SentList(x: Option<seq<string>>): Option<seq<string>> {
    if x.Some? && |x.value| > 0 then x else None
  }

  /** How the server reads a comma-separated parameter. */
  function ReadList(v: Option<string>): Option<seq<string>> {
    if Truthy(v) then Some(CommaList(v.value)) else None
  }

  lemma JoinNotEmpty(xs: seq<string>, sep: char)
    requires |xs| >= 1 && xs != [""]
    ensures Join(xs, sep) != ""
  {
    if |xs| > 1 {
      assert |Join(xs, sep)| >= |xs[0] + [sep]|;
    }
  }

  /** Round trip: the server's `split(',')` and `trim` give back the list
      the client joined, and an empty or unset list stays unset. */
  lemma ServerReadsList(x: Option<seq<string>>)
    requires x.Some? ==> Readable(x.value)
    ensures ReadList(ListParam(x)) == SentList(x)
  {
    if x.Some? && |x.value| > 0 {
      JoinNotEmpty(x.value, ',');
      RequestedBrandsJoin(x.value);
    }
  }

  /** Every list of the filters is readable. */
  predicate ReadableFilters(f: Option<ClientFilters>) {
    f.Some? ==>
      && (f.value.marcas.Some? ==> Readable(f.value.marcas.value))
      && (f.value.modelos.Some? ==> Readable(f.value.modelos.value))
      && (f.value.cambios.Some? ==> Readable(f.value.cambios.value))
  }

  /** A request whose parameters are those the client's pairs give. */
  predicate ReceivedFrom(q: ListQuery, p: ClientListParams) {
    var pairs := ListPairs(p);
    && q.page == Lookup(pairs, Name(PageKey))
    && q.pageSize == Lookup(pairs, Name(PageSizeKey))
    && q.sortBy == Lookup(pairs, Name(SortByKey))
    && q.marcas == Lookup(pairs, Name(MarcasKey))
    && q.modelos == Lookup(pairs, Name(ModelosKey))
    && q.anoMin == Lookup(pairs, Name(AnoMinKey))
    && q.anoMax == Lookup(pairs, Name(AnoMaxKey))
    && q.cambios == Lookup(pairs, Name(CambiosKey))
  }

  /** The server reads the page, the page size and the order the client
      sent, with its defaults for those not sent. */
  lemma ServerReadsPaging(p: ClientListParams, q: ListQuery)
    requires ReceivedFrom(q, p)
    ensures PageNumber(q) == SentNumber(p.page).GetOr(1)
    ensures PageSizeNumber(q) == SentNumber(p.pageSize).GetOr(12)
    ensures ParseSortOrder(SortText(q)) == Some(p.sortBy.GetOr(Relevancia))
  {
    ListLookup(p, PageKey);
    ListLookup(p, PageSizeKey);
    ListLookup(p, SortByKey);
    ServerReadsNumber(p.page, 1);
    ServerReadsNumber(p.pageSize, 12);
    ParseSortOrderValue(p.sortBy.GetOr(Relevancia));
  }

  /** What the server makes of one sent list and one sent year. */
  function SentListOf(f: Option<ClientFilters>, k: QueryKey): Option<seq<string>>
    requires k == MarcasKey || k == ModelosKey || k == CambiosKey
  {
    if f.None? then None
    else if k == MarcasKey then SentList(f.value.marcas)
    else if k == ModelosKey then SentList(f.value.modelos)
    else SentList(f.value.cambios)
  }

  function SentYearOf(f: Option<ClientFilters>, k: QueryKey): Option<int>
    requires k == AnoMinKey || k == AnoMaxKey
  {
    if f.None? then None
    else if k == AnoMinKey then SentNumber(Numeric(f.value.anoMin))
    else SentNumber(Numeric(f.value.anoMax))
  }

  /** A list key, sent as the client writes it, is read as the list meant. */
  lemma ReadsListKey(p: ClientListParams, k: QueryKey)
    requires k == MarcasKey || k == ModelosKey || k == CambiosKey
    requires ReadableFilters(p.filters)
    ensures ReadList(ParamValue(p, k)) == SentListOf(p.filters, k)
  {
    if p.filters.Some? {
      var f := p.filters.value;
      if k == MarcasKey {
        ServerReadsList(f.marcas);
      } else if k == ModelosKey {
        ServerReadsList(f.modelos);
      } else {
        ServerReadsList(f.cambios);
      }
    }
  }

  /** A year key, sent as the client writes it, is read as the year meant. */
  lemma ReadsYearKey(p: ClientListParams, k: QueryKey)
    requires k == AnoMinKey || k == AnoMaxKey
    ensures YearValue(ParamValue(p, k)) == SentYearOf(p.filters, k)
  {
    if p.filters.Some? {
      var f := p.filters.value;
      if k == AnoMinKey {
        ServerReadsNumber(Numeric(f.anoMin), 0);
      } else {
        ServerReadsNumber(Numeric(f.anoMax), 0);
      }
    } else {
      ParseIntBlank("");
    }
  }

  /** The filters the server reads are those the client sent: the lists
      and years set and not empty, and nothing else. */
  lemma ServerReadsFilters(p: ClientListParams, q: ListQuery)
    requires ReceivedFrom(q, p) && ReadableFilters(p.filters)
    ensures var r := QueryFilters(q);
      && r.marcas == SentListOf(p.filters, MarcasKey)
      && r.modelos == SentListOf(p.filters, ModelosKey)
      && r.cambios == SentListOf(p.filters, CambiosKey)
      && r.anoMin == SentYearOf(p.filters, AnoMinKey)
      && r.anoMax == SentYearOf(p.filters, AnoMaxKey)
  {
    ListLookup(p, MarcasKey);
    ListLookup(p, ModelosKey);
    ListLookup(p, CambiosKey);
    ListLookup(p, AnoMinKey);
    ListLookup(p, AnoMaxKey);
    ReadsListKey(p, MarcasKey);
    ReadsListKey(p, ModelosKey);
    ReadsListKey(p, CambiosKey);
    ReadsYearKey(p, AnoMinKey);
    ReadsYearKey(p, AnoMaxKey);
  }

  // ------------------------------------------------------------ models by brands

  /** The pairs `getModelosByMarcas` sends: the brands joined by commas,
      or nothing for no brands. */
  function ModelosPairs(marcas: seq<string>): seq<(string, string)> {
    if |marcas| > 0 then [(Name(MarcasKey), Join(marcas, ','))] else []
  }

  /** `getModelosByMarcas`, without the request itself. */
  method ModelosQuery(marcas: seq<string>) returns (query: seq<(string, string)>)
    ensures query == ModelosPairs(marcas)
  {
    var q := new SearchParams();
    if |marcas| > 0 {
      q.Append(Name(MarcasKey), Join(marcas, ','));
    }
    query := q.pairs;
  }

  /** The server answers the models of exactly the brands the client asked
      for, and for no brands the models of every brand. */
  lemma ModelosRoundTrip(marcas: seq<string>)
    requires Readable(marcas)
    ensures ModelosHandler(Lookup(ModelosPairs(marcas), Name(MarcasKey))) == GetModelosByMarcas(marcas)
  {
    if |marcas| > 0 {
      ServerReadsList(Some(marcas));
    }
  }
}
