/** The vehicle query engine (backend/src/services/vehicle/vehicleLogic.ts):
    a filter, a sort and a page slice over a constant catalogue, the facet
    lists for the filter panel, the brand-scoped model list, and the detail
    lookup. */
module VehicleLogic {
  import opened Wrappers
  import opened Arrays
  import opened VehicleTypes

  const Civic := Vehicle("1", "Civic", "Honda", 2023, 145000,
    "https://via.placeholder.com/300x169?text=Honda+Civic+2023", Some(5000), Some("Automático"))
  const Corolla := Vehicle("2", "Corolla", "Toyota", 2022, 135000,
    "https://via.placeholder.com/300x169?text=Toyota+Corolla+2022", Some(15000), Some("CVT"))
  const Onix := Vehicle("3", "Onix", "Chevrolet", 2023, 85000,
    "https://via.placeholder.com/300x169?text=Chevrolet+Onix+2023", Some(2000), Some("Manual"))
  const HB20 := Vehicle("4", "HB20", "Hyundai", 2021, 75000,
    "https://via.placeholder.com/300x169?text=Hyundai+HB20+2021", Some(30000), Some("Manual"))
  const Compass := Vehicle("5", "Compass", "Jeep", 2023, 185000,
    "https://via.placeholder.com/300x169?text=Jeep+Compass+2023", Some(8000), Some("Automático"))

  /** The in-memory catalogue. */
  const Catalogue: seq<Vehicle> := [Civic, Corolla, Onix, HB20, Compass]

  /** The in-memory detail store: only the first two vehicles have one. */
  const VehicleDetails: map<string, VehicleDetail> := map[
    "1" := VehicleDetail("1", "Honda Civic 2023", 145000, "Disponível",
      "https://catalogo-carros.com/veiculos/honda-civic-2023-1"),
    "2" := VehicleDetail("2", "Toyota Corolla 2022", 135000, "Disponível",
      "https://catalogo-carros.com/veiculos/toyota-corolla-2022-2")
  ]

  // ---------------------------------------------------------------- filters

  /** A list criterion is supplied when it is present and not empty. */
  predicate HasItems(xs: Option<seq<string>>) {
    xs.Some? && |xs.value| > 0
  }

  /** A vehicle matches the filters when it passes every supplied criterion:
      its brand, model and transmission are among those listed, and its year
      and price lie within the given bounds. A vehicle without a transmission
      (or with an empty one) fails a transmission criterion. */
  predicate Matches(f: VehicleFilters, v: Vehicle) {
    && (HasItems(f.marcas) ==> v.marca in f.marcas.value)
    && (HasItems(f.modelos) ==> v.modelo in f.modelos.value)
    && (f.anoMin.Some? ==> v.ano >= f.anoMin.value)
    && (f.anoMax.Some? ==> v.ano <= f.anoMax.value)
    && (f.precoMin.Some? ==> v.preco as real >= f.precoMin.value)
    && (f.precoMax.Some? ==> v.preco as real <= f.precoMax.value)
    && (HasItems(f.cambios) ==> v.cambio.Some? && v.cambio.value != "" && v.cambio.value in f.cambios.value)
  }

  function MatchTest(f: VehicleFilters): Vehicle -> bool {
    v => Matches(f, v)
  }

  /** Whether the k-th filtering step of `applyFilters` runs. */
  predicate Active(f: VehicleFilters, k: nat) {
    match k
    case 0 => HasItems(f.marcas)
    case 1 => HasItems(f.modelos)
    case 2 => f.anoMin.Some?
    case 3 => f.anoMax.Some?
    case 4 => f.precoMin.Some?
    case 5 => f.precoMax.Some?
    case _ => HasItems(f.cambios)
  }

  /** The condition of the k-th filtering step (true when the step is off). */
  predicate Criterion(f: VehicleFilters, k: nat, v: Vehicle) {
    match k
    case 0 => HasItems(f.marcas) ==> v.marca in f.marcas.value
    case 1 => HasItems(f.modelos) ==> v.modelo in f.modelos.value
    case 2 => f.anoMin.Some? ==> v.ano >= f.anoMin.value
    case 3 => f.anoMax.Some? ==> v.ano <= f.anoMax.value
    case 4 => f.precoMin.Some? ==> v.preco as real >= f.precoMin.value
    case 5 => f.precoMax.Some? ==> v.preco as real <= f.precoMax.value
    case _ => HasItems(f.cambios) ==> v.cambio.Some? && v.cambio.value != "" && v.cambio.value in f.cambios.value
  }

  function CriterionTest(f: VehicleFilters, k: nat): Vehicle -> bool {
    v => Criterion(f, k, v)
  }

  /** One `if (...) filtered = filtered.filter(...)` of `applyFilters`. */
  function Step(s: seq<Vehicle>, f: VehicleFilters, k: nat): seq<Vehicle> {
    if Active(f, k) then Filter(s, CriterionTest(f, k)) else s
  }

  /** `applyFilters`: brands, models, minimum and maximum year, minimum and
      maximum price, transmissions, one filter after the other. */
  function ApplyFilters(vs: seq<Vehicle>, f: VehicleFilters): seq<Vehicle> {
    var byMarca := Step(vs, f, 0);
    var byModelo := Step(byMarca, f, 1);
    var byAnoMin := Step(byModelo, f, 2);
    var byAnoMax := Step(byAnoMin, f, 3);
    var byPrecoMin := Step(byAnoMax, f, 4);
    var byPrecoMax := Step(byPrecoMin, f, 5);
    Step(byPrecoMax, f, 6)
  }

  /** The first k criteria hold. */
  predicate MatchesFirst(f: VehicleFilters, k: nat, v: Vehicle) {
    k == 0 || (MatchesFirst(f, k - 1, v) && Criterion(f, k - 1, v))
  }

  function PrefixTest(f: VehicleFilters, k: nat): Vehicle -> bool {
    v => MatchesFirst(f, k, v)
  }

  lemma {:induction false} StepExtends(s: seq<Vehicle>, f: VehicleFilters, k: nat)
    ensures Step(Filter(s, PrefixTest(f, k)), f, k) == Filter(s, PrefixTest(f, k + 1))
  {
    if Active(f, k) {
      FilterFilter(s, PrefixTest(f, k), CriterionTest(f, k), PrefixTest(f, k + 1));
    } else {
      assert forall v :: Criterion(f, k, v);
      FilterSame(s, PrefixTest(f, k), PrefixTest(f, k + 1));
    }
  }

  /** The successive filters of `applyFilters` select exactly the vehicles
      that pass every supplied criterion, and keep them in catalogue order:
      the result is the single filter by the conjunction. */
  lemma {:induction false} ApplyFiltersSelects(vs: seq<Vehicle>, f: VehicleFilters)
    ensures ApplyFilters(vs, f) == Filter(vs, MatchTest(f))
    ensures forall v :: v in ApplyFilters(vs, f) <==> v in vs && Matches(f, v)
    ensures IsSubsequence(ApplyFilters(vs, f), vs)
  {
    ApplyFiltersIsFilter(vs, f);
  }

  /** The list after the first `k` filtering steps. */
  function StepsUpTo(vs: seq<Vehicle>, f: VehicleFilters, k: nat): seq<Vehicle> {
    if k == 0 then vs else Step(StepsUpTo(vs, f, k - 1), f, k - 1)
  }

  /** The first `k` steps keep the vehicles that pass the first `k`
      criteria. */
  lemma {:induction false} StepsUpToPrefix(vs: seq<Vehicle>, f: VehicleFilters, k: nat)
    ensures StepsUpTo(vs, f, k) == Filter(vs, PrefixTest(f, k))
  {
    if k == 0 {
      NoStepsKeepAll(vs, f);
    } else {
      StepsUpToPrefix(vs, f, k - 1);
      OneMoreStep(vs, f, k);
    }
  }

  lemma NoStepsKeepAll(vs: seq<Vehicle>, f: VehicleFilters)
    ensures StepsUpTo(vs, f, 0) == Filter(vs, PrefixTest(f, 0))
  {
    FilterSame(vs, PrefixTest(f, 0), v => true);
    FilterAll(vs);
  }

  lemma OneMoreStep(vs: seq<Vehicle>, f: VehicleFilters, k: nat)
    requires k > 0 && StepsUpTo(vs, f, k - 1) == Filter(vs, PrefixTest(f, k - 1))
    ensures StepsUpTo(vs, f, k) == Filter(vs, PrefixTest(f, k))
  {
    StepExtends(vs, f, k - 1);
  }

  lemma ApplyFiltersIsFilter(vs: seq<Vehicle>, f: VehicleFilters)
    ensures ApplyFilters(vs, f) == Filter(vs, MatchTest(f))
  {
    var s1 := Step(vs, f, 0);
    var s2 := Step(s1, f, 1);
    var s3 := Step(s2, f, 2);
    var s4 := Step(s3, f, 3);
    var s5 := Step(s4, f, 4);
    var s6 := Step(s5, f, 5);
    assert StepsUpTo(vs, f, 1) == s1;
    assert StepsUpTo(vs, f, 2) == s2;
    assert StepsUpTo(vs, f, 3) == s3;
    assert StepsUpTo(vs, f, 4) == s4;
    assert StepsUpTo(vs, f, 5) == s5;
    assert StepsUpTo(vs, f, 6) == s6;
    assert ApplyFilters(vs, f) == StepsUpTo(vs, f, 7);
    StepsUpToPrefix(vs, f, 7);
    forall v | v in vs ensures PrefixTest(f, 7)(v) == MatchTest(f)(v) {
      MatchesAll(f, v);
    }
    FilterSame(vs, PrefixTest(f, 7), MatchTest(f));
  }

  lemma MatchesAll(f: VehicleFilters, v: Vehicle)
    ensures MatchesFirst(f, 7, v) <==> Matches(f, v)
  {
    assert MatchesFirst(f, 7, v) <==> MatchesFirst(f, 6, v) && Criterion(f, 6, v);
    assert MatchesFirst(f, 6, v) <==> MatchesFirst(f, 5, v) && Criterion(f, 5, v);
    assert MatchesFirst(f, 5, v) <==> MatchesFirst(f, 4, v) && Criterion(f, 4, v);
    assert MatchesFirst(f, 4, v) <==> MatchesFirst(f, 3, v) && Criterion(f, 3, v);
    assert MatchesFirst(f, 3, v) <==> MatchesFirst(f, 2, v) && Criterion(f, 2, v);
    assert MatchesFirst(f, 2, v) <==> MatchesFirst(f, 1, v) && Criterion(f, 1, v);
    assert MatchesFirst(f, 1, v) <==> Criterion(f, 0, v);
  }

  lemma {:induction false} FilterAll(s: seq<Vehicle>)
    ensures Filter(s, v => true) == s
  {
    if s != [] {
      FilterAll(s[1..]);
    }
  }

  // ---------------------------------------------------------------- sorting

  /** The comparator of each sort order, read as "compare(a, b) <= 0": price
      and year numerically, model by the string order that stands for
      `localeCompare`. */
  predicate NotAfter(order: SortOrder, a: Vehicle, b: Vehicle) {
    match order
    case PrecoAsc => a.preco - b.preco <= 0
    case PrecoDesc => b.preco - a.preco <= 0
    case AnoDesc => b.ano - a.ano <= 0
    case AnoAsc => a.ano - b.ano <= 0
    case ModeloAsc => StringLe(a.modelo, b.modelo)
    case ModeloDesc => StringLe(b.modelo, a.modelo)
    case Relevancia => true
  }

  function Comparator(order: SortOrder): (Vehicle, Vehicle) -> bool {
    (a, b) => NotAfter(order, a, b)
  }

  /** `applySorting`: a stable sort of a copy by the chosen comparator;
      relevance keeps the order it is given. */
  function ApplySorting(vs: seq<Vehicle>, order: SortOrder): (r: seq<Vehicle>)
    ensures multiset(r) == multiset(vs)
  {
    match order
    case Relevancia => vs
    case _ => Sort(vs, Comparator(order))
  }

  lemma ComparatorIsPreorder(order: SortOrder)
    ensures TotalPreorder(Comparator(order))
  {
    if order == ModeloAsc || order == ModeloDesc {
      StringOrder();
    }
  }

  /** The sorted listing is in the order the sort option names: prices or
      years ascending or descending, models in string order either way;
      relevance leaves the input as it is. */
  lemma {:induction false} ApplySortingOrdered(vs: seq<Vehicle>, order: SortOrder)
    ensures var r := ApplySorting(vs, order);
      && (order == Relevancia ==> r == vs)
      && (order == PrecoAsc ==> forall i, j :: 0 <= i < j < |r| ==> r[i].preco <= r[j].preco)
      && (order == PrecoDesc ==> forall i, j :: 0 <= i < j < |r| ==> r[i].preco >= r[j].preco)
      && (order == AnoAsc ==> forall i, j :: 0 <= i < j < |r| ==> r[i].ano <= r[j].ano)
      && (order == AnoDesc ==> forall i, j :: 0 <= i < j < |r| ==> r[i].ano >= r[j].ano)
      && (order == ModeloAsc ==> forall i, j :: 0 <= i < j < |r| ==> StringLe(r[i].modelo, r[j].modelo))
      && (order == ModeloDesc ==> forall i, j :: 0 <= i < j < |r| ==> StringLe(r[j].modelo, r[i].modelo))
  {
    if order != Relevancia {
      ComparatorIsPreorder(order);
      SortSorted(vs, Comparator(order));
      var r := ApplySorting(vs, order);
      assert forall i, j :: 0 <= i < j < |r| ==> NotAfter(order, r[i], r[j]);
    }
  }

  /** The sort is stable: whatever the order, the vehicles it ranks alike
      with `k` come out in the order they went in. */
  lemma ApplySortingStable(vs: seq<Vehicle>, order: SortOrder, k: Vehicle)
    ensures Filter(ApplySorting(vs, order), Tied(Comparator(order), k))
         == Filter(vs, Tied(Comparator(order), k))
  {
    if order != Relevancia {
      ComparatorIsPreorder(order);
      SortStable(vs, Comparator(order), k);
    }
  }

  /** Under either year order, the vehicles of one year keep their
      catalogue order. */
  lemma SameYearKeepsOrder(vs: seq<Vehicle>, order: SortOrder, k: Vehicle)
    requires order == AnoAsc || order == AnoDesc
    ensures Filter(ApplySorting(vs, order), (v: Vehicle) => v.ano == k.ano)
         == Filter(vs, (v: Vehicle) => v.ano == k.ano)
  {
    var q, y := Tied(Comparator(order), k), (v: Vehicle) => v.ano == k.ano;
    var r := ApplySorting(vs, order);
    ApplySortingStable(vs, order, k);
    forall i | 0 <= i < |r| ensures q(r[i]) == y(r[i]) {
      TiedByYear(order, k, r[i]);
    }
    FilterSame(r, q, y);
    forall i | 0 <= i < |vs| ensures q(vs[i]) == y(vs[i]) {
      TiedByYear(order, k, vs[i]);
    }
    FilterSame(vs, q, y);
  }

  lemma TiedByYear(order: SortOrder, k: Vehicle, v: Vehicle)
    requires order == AnoAsc || order == AnoDesc
    ensures Tied(Comparator(order), k)(v) == (v.ano == k.ano)
  {
  }

  /** With no two vehicles at the same price, sorting by price descending is
      sorting by price ascending read backwards. */
  lemma {:induction false} PriceOrdersReverse(vs: seq<Vehicle>)
    requires forall i, j :: 0 <= i < j < |vs| ==> vs[i].preco != vs[j].preco
    ensures ApplySorting(vs, PrecoDesc) == Reverse(ApplySorting(vs, PrecoAsc))
  {
    ComparatorIsPreorder(PrecoAsc);
    ComparatorIsPreorder(PrecoDesc);
    forall x, y | x in multiset(vs) && y in multiset(vs) && x.preco == y.preco
      ensures x == y
    {
      var i :| 0 <= i < |vs| && vs[i] == x;
      var j :| 0 <= j < |vs| && vs[j] == y;
      assert i == j;
    }
    SortReversed(vs, Comparator(PrecoAsc), Comparator(PrecoDesc));
  }

  /** With no two vehicles of the same year, the two year orders are each
      other's reverse. */
  lemma {:induction false} YearOrdersReverse(vs: seq<Vehicle>)
    requires forall i, j :: 0 <= i < j < |vs| ==> vs[i].ano != vs[j].ano
    ensures ApplySorting(vs, AnoDesc) == Reverse(ApplySorting(vs, AnoAsc))
  {
    ComparatorIsPreorder(AnoAsc);
    ComparatorIsPreorder(AnoDesc);
    forall x, y | x in multiset(vs) && y in multiset(vs) && x.ano == y.ano
      ensures x == y
    {
      var i :| 0 <= i < |vs| && vs[i] == x;
      var j :| 0 <= j < |vs| && vs[j] == y;
      assert i == j;
    }
    SortReversed(vs, Comparator(AnoAsc), Comparator(AnoDesc));
  }

  // ------------------------------------------------------------- pagination

  /** `Math.ceil(total / pageSize)` for a positive page size, counted one
      page at a time. */
  function CeilDiv(total: nat, pageSize: nat): nat
    requires pageSize > 0
    decreases total
  {
    if total == 0 then 0
    else if total <= pageSize then 1
    else 1 + CeilDiv(total - pageSize, pageSize)
  }

  /** `CeilDiv` is the ceiling of the quotient: the fewest pages of the
      given size that hold `total` items, zero exactly for no items. */
  lemma {:induction false} CeilDivSpec(total: nat, pageSize: nat)
    requires pageSize > 0
    ensures CeilDiv(total, pageSize) * pageSize >= total
    ensures CeilDiv(total, pageSize) == 0 || (CeilDiv(total, pageSize) - 1) * pageSize < total
    ensures CeilDiv(total, pageSize) == 0 <==> total == 0
    decreases total
  {
    if total > pageSize {
      var q := CeilDiv(total - pageSize, pageSize);
      CeilDivSpec(total - pageSize, pageSize);
      assert CeilDiv(total, pageSize) == q + 1;
      assert (q + 1) * pageSize == q * pageSize + pageSize;
      assert q >= 1;
      assert q * pageSize == (q - 1) * pageSize + pageSize;
    }
  }

  /** Whether `params.page || 1` style defaulting applies: a missing value or
      a zero is replaced. */
  function OrDefault(x: Option<int>, default: int): int {
    if x.None? || x.value == 0 then default else x.value
  }

  /** The filtered and sorted vehicles a listing pages through. */
  function Listing(vs: seq<Vehicle>, p: VehicleListParams): seq<Vehicle> {
    ApplySorting(ApplyFilters(vs, p.filters.GetOr(NoFilters)), p.sortBy.GetOr(Relevancia))
  }

  /** The paging half of `vehicleList`: the counts and the requested page
      of an already filtered and sorted listing. The page size is one the
      caller has validated (a missing or zero size means 12, a missing or
      zero page means 1). */
  function Paginate(listing: seq<Vehicle>, page: Option<int>, pageSize: Option<int>): VehicleListResponse
    requires pageSize.Some? ==> pageSize.value >= 0
  {
    var page := OrDefault(page, 1);
    var pageSize := OrDefault(pageSize, 12);
    var total := |listing|;
    var totalPages := CeilDiv(total, pageSize);
    var startIndex := PageStart(page, pageSize);
    var endIndex := startIndex + pageSize;
    VehicleListResponse(Slice(listing, startIndex, endIndex), total, page, pageSize, totalPages)
  }

  /** A page of the filtered and sorted vehicles. */
  function ListVehicles(vs: seq<Vehicle>, p: VehicleListParams): VehicleListResponse
    requires p.pageSize.Some? ==> p.pageSize.value >= 0
  {
    Paginate(Listing(vs, p), p.page, p.pageSize)
  }

  /** `vehicleList`: a page of the filtered and sorted catalogue. */
  function VehicleList(p: VehicleListParams): VehicleListResponse
    requires p.pageSize.Some? ==> p.pageSize.value >= 0
  {
    ListVehicles(Catalogue, p)
  }

  /** The position where page `page` starts, `(page - 1) * pageSize`,
      counted one page at a time from page 1. */
  function PageStart(page: int, pageSize: nat): (r: int)
    ensures page >= 1 ==> r >= 0
    decreases if page >= 1 then page - 1 else 1 - page
  {
    if page == 1 then 0
    else if page > 1 then PageStart(page - 1, pageSize) + pageSize
    else PageStart(page + 1, pageSize) - pageSize
  }

  /** `PageStart` is the product the listing computes. */
  lemma {:induction false} PageStartProduct(page: int, pageSize: nat)
    ensures PageStart(page, pageSize) == (page - 1) * pageSize
    decreases if page >= 1 then page - 1 else 1 - page
  {
    if page > 1 {
      PageStartProduct(page - 1, pageSize);
      assert (page - 1) * pageSize == (page - 2) * pageSize + pageSize;
    } else if page < 1 {
      PageStartProduct(page + 1, pageSize);
      assert (page - 1) * pageSize == page * pageSize - pageSize;
    }
  }

  /** Pages from the first on start at a position, one page after the
      previous page. */
  lemma {:induction false} PageStartStep(page: int, pageSize: nat)
    requires page >= 1
    ensures PageStart(page, pageSize) >= 0
    ensures PageStart(page + 1, pageSize) == PageStart(page, pageSize) + pageSize
    decreases page
  {
    if page > 1 {
      PageStartStep(page - 1, pageSize);
    }
  }

  /** The counts a page reports: `total` counts the whole listing and
      `totalPages` is the ceiling of total over the page size, zero exactly
      when the listing is empty. A missing page or size means 1 and 12. */
  lemma {:induction false} PaginateCounts(listing: seq<Vehicle>, page: Option<int>, pageSize: Option<int>)
    requires pageSize.Some? ==> pageSize.value >= 0
    ensures var r := Paginate(listing, page, pageSize);
      && r.total == |listing|
      && r.pageSize > 0
      && r.totalPages * r.pageSize >= r.total
      && (r.totalPages == 0 || (r.totalPages - 1) * r.pageSize < r.total)
      && (r.totalPages == 0 <==> r.total == 0)
      && (page.None? ==> r.page == 1)
      && (pageSize.None? ==> r.pageSize == 12)
  {
    var size := OrDefault(pageSize, 12);
    var r := Paginate(listing, page, pageSize);
    assert r.total == |listing| && r.pageSize == size && size > 0;
    assert r.totalPages == CeilDiv(|listing|, size);
    CeilDivSpec(|listing|, size);
  }

  /** The vehicles of a page: at most `pageSize` of them; page n (n >= 1)
      is positions (n-1)*size up to n*size of the listing, cut at the end,
      and is empty past the end. */
  lemma {:induction false} PaginateContents(listing: seq<Vehicle>, page: Option<int>, pageSize: Option<int>)
    requires pageSize.Some? ==> pageSize.value >= 0
    ensures var r := Paginate(listing, page, pageSize);
      var from := Min(PageStart(r.page, r.pageSize), |listing|);
      && |r.vehicles| <= r.pageSize
      && (r.page >= 1 ==> r.vehicles == listing[from..Min(from + r.pageSize, |listing|)])
      && (r.page >= 1 && PageStart(r.page, r.pageSize) >= |listing| ==> r.vehicles == [])
  {
    var size := OrDefault(pageSize, 12);
    var n := OrDefault(page, 1);
    var start := PageStart(n, size);
    var r := Paginate(listing, page, pageSize);
    assert r.page == n && r.pageSize == size;
    assert r.vehicles == Slice(listing, start, start + size);
    if n >= 1 {
      PageStartStep(n, size);
    }
  }

  /** Pages further on start further on. */
  lemma {:induction false} PageStartMonotone(a: int, b: int, size: nat)
    requires 1 <= a <= b
    ensures PageStart(a, size) <= PageStart(b, size)
    decreases b - a
  {
    if a < b {
      PageStartMonotone(a, b - 1, size);
      PageStartStep(b - 1, size);
    }
  }

  /** Every page from the first up to the page count holds at least one
      vehicle. */
  lemma {:induction false} PageWithinCountIsFilled(listing: seq<Vehicle>, page: int, size: nat)
    requires size > 0 && 1 <= page <= CeilDiv(|listing|, size)
    ensures |Paginate(listing, Some(page), Some(size)).vehicles| > 0
  {
    var t := CeilDiv(|listing|, size);
    CeilDivSpec(|listing|, size);
    PageStartMonotone(page, t, size);
    PageStartProduct(t, size);
    var from := PageStart(page, size);
    assert 0 <= from < |listing|;
    PaginateContents(listing, Some(page), Some(size));
    var r := Paginate(listing, Some(page), Some(size));
    assert r.vehicles == listing[from..Min(from + size, |listing|)];
  }

  /** The listing a search pages through holds exactly the vehicles searched
      that pass the filters, each as often as it occurs there; with no sort
      order it keeps their original order. */
  lemma {:induction false} ListingSpec(vs: seq<Vehicle>, p: VehicleListParams)
    ensures var f := p.filters.GetOr(NoFilters);
      && multiset(Listing(vs, p)) == multiset(Filter(vs, MatchTest(f)))
      && |Listing(vs, p)| == |ApplyFilters(vs, f)|
      && (forall v :: v in Listing(vs, p) <==> v in vs && Matches(f, v))
      && (p.sortBy.None? ==> Listing(vs, p) == ApplyFilters(vs, f))
  {
    var f := p.filters.GetOr(NoFilters);
    ApplyFiltersSelects(vs, f);
    var filtered := ApplyFilters(vs, f);
    var listing := Listing(vs, p);
    assert multiset(listing) == multiset(filtered);
    assert |listing| == |filtered| by {
      assert |multiset(listing)| == |multiset(filtered)|;
    }
    forall v ensures v in listing <==> v in vs && Matches(f, v) {
      assert v in listing <==> v in multiset(listing);
      assert v in filtered <==> v in multiset(filtered);
    }
  }

  /** Every vehicle a page lists is one of the vehicles searched and
      passes the filters, and the page counts cover exactly the matching
      vehicles. */
  lemma {:induction false} ListVehiclesSound(vs: seq<Vehicle>, p: VehicleListParams)
    requires p.pageSize.Some? ==> p.pageSize.value >= 0
    ensures var r := ListVehicles(vs, p);
      && r.total == |ApplyFilters(vs, p.filters.GetOr(NoFilters))|
      && forall v :: v in r.vehicles ==> v in vs && Matches(p.filters.GetOr(NoFilters), v)
  {
    ListingSpec(vs, p);
    PaginateFrom(Listing(vs, p), p.page, p.pageSize);
  }

  /** A page counts every vehicle of the listing and lists only vehicles
      of it. */
  lemma PaginateFrom(listing: seq<Vehicle>, page: Option<int>, pageSize: Option<int>)
    requires pageSize.Some? ==> pageSize.value >= 0
    ensures var r := Paginate(listing, page, pageSize);
      r.total == |listing| && forall v :: v in r.vehicles ==> v in listing
  {
  }

  const HondaToyota := VehicleFilters(Some(["Honda", "Toyota"]), None, None, None, None, None, None)

  lemma HondaToyotaBrands(t: Vehicle -> bool)
    requires t == CriterionTest(HondaToyota, 0)
    ensures Filter(Catalogue, t) == [Civic, Corolla]
  {
    assert !t(Compass) && !t(HB20) && !t(Onix) && t(Corolla) && t(Civic);
    assert Filter([Compass], t) == [];
    assert Filter([HB20, Compass], t) == [];
    assert Filter([Onix, HB20, Compass], t) == [];
    assert Filter([Corolla, Onix, HB20, Compass], t) == [Corolla];
  }

  lemma HondaToyotaFilter()
    ensures ApplyFilters(Catalogue, HondaToyota) == [Civic, Corolla]
  {
    HondaToyotaBrands(CriterionTest(HondaToyota, 0));
    var s := [Civic, Corolla];
    assert Step(Catalogue, HondaToyota, 0) == s;
    assert forall k :: 1 <= k <= 6 ==> !Active(HondaToyota, k);
  }

  lemma CorollaBeforeCivic()
    ensures Sort([Civic, Corolla], Comparator(PrecoAsc)) == [Corolla, Civic]
  {
    var le := Comparator(PrecoAsc);
    assert [Civic, Corolla][..1] == [Civic];
    assert Sort([Civic], le) == [Civic];
    assert !le(Civic, Corolla);
  }

  lemma HondaToyotaListing(p: VehicleListParams)
    requires p == VehicleListParams(None, None, Some(HondaToyota), Some(PrecoAsc))
    ensures Listing(Catalogue, p) == [Corolla, Civic]
  {
    HondaToyotaFilter();
    CorollaBeforeCivic();
  }

  /** Asking for "Honda" and "Toyota" by ascending price gives the Corolla
      before the Civic, on one page. */
  lemma HondaToyotaByPrice()
    ensures var r := VehicleList(VehicleListParams(None, None, Some(HondaToyota), Some(PrecoAsc)));
      && r.total == 2 && r.totalPages == 1 && r.page == 1 && r.pageSize == 12
      && r.vehicles == [Corolla, Civic]
  {
    var p := VehicleListParams(None, None, Some(HondaToyota), Some(PrecoAsc));
    HondaToyotaListing(p);
    var listing := [Corolla, Civic];
    assert PageStart(1, 12) == 0;
    assert Slice(listing, 0, 12) == listing;
  }

  // ----------------------------------------------------------------- facets

  function Marcas(vs: seq<Vehicle>): (r: seq<string>)
    ensures forall x :: x in r <==> exists v :: v in vs && v.marca == x
  {
    if vs == [] then [] else [vs[0].marca] + Marcas(vs[1..])
  }

  function Modelos(vs: seq<Vehicle>): (r: seq<string>)
    ensures forall x :: x in r <==> exists v :: v in vs && v.modelo == x
  {
    if vs == [] then [] else [vs[0].modelo] + Modelos(vs[1..])
  }

  function Anos(vs: seq<Vehicle>): (r: seq<int>)
    ensures forall x :: x in r <==> exists v :: v in vs && v.ano == x
  {
    if vs == [] then [] else [vs[0].ano] + Anos(vs[1..])
  }

  /** The transmissions that are not null. */
  function Cambios(vs: seq<Vehicle>): (r: seq<string>)
    ensures forall x :: x in r <==> exists v :: v in vs && v.cambio == Some(x)
  {
    if vs == [] then []
    else (if vs[0].cambio.Some? then [vs[0].cambio.value] else []) + Cambios(vs[1..])
  }

  /** Years compare newest first (`(a, b) => b - a`). */
  function NewestFirst(): (int, int) -> bool {
    (a, b) => b - a <= 0
  }

  /** The facets of a vehicle list. */
  function FacetsOf(vs: seq<Vehicle>): FilterOptions {
    FilterOptions(
      SortDistinct(Marcas(vs), StringLe),
      SortDistinct(Modelos(vs), StringLe),
      SortDistinct(Anos(vs), NewestFirst()),
      SortDistinct(Cambios(vs), StringLe))
  }

  /** `getFilterOptions` */
  function GetFilterOptions(): FilterOptions {
    FacetsOf(Catalogue)
  }

  /** Distinct strings sorted by the string order are strictly ascending,
      and are exactly the strings given. */
  lemma {:induction false} DistinctStrings(s: seq<string>)
    ensures StrictlyAscending(SortDistinct(s, StringLe))
    ensures forall x :: x in SortDistinct(s, StringLe) <==> x in s
  {
    StringOrder();
    SortDistinctStrict(s, StringLe);
  }

  /** Brands, models and transmissions are listed once each in strictly
      increasing string order, years once each newest first, and each list
      holds exactly the values found in the vehicles (transmissions: the
      non-null ones). */
  lemma {:induction false} FacetsSpec(vs: seq<Vehicle>)
    ensures var o := FacetsOf(vs);
      && StrictlyAscending(o.marcas)
      && StrictlyAscending(o.modelos)
      && StrictlyAscending(o.cambios)
      && (forall i, j :: 0 <= i < j < |o.anos| ==> o.anos[i] > o.anos[j])
      && (forall x :: x in o.marcas <==> exists v :: v in vs && v.marca == x)
      && (forall x :: x in o.modelos <==> exists v :: v in vs && v.modelo == x)
      && (forall x :: x in o.anos <==> exists v :: v in vs && v.ano == x)
      && (forall x :: x in o.cambios <==> exists v :: v in vs && v.cambio == Some(x))
  {
    DistinctStrings(Marcas(vs));
    DistinctStrings(Modelos(vs));
    DistinctStrings(Cambios(vs));
    SortDistinctStrict(Anos(vs), NewestFirst());
  }

  function BrandTest(marcas: seq<string>): Vehicle -> bool {
    (v: Vehicle) => v.marca in marcas
  }

  /** The models of the vehicles of the given brands (all models when no
      brand is given), once each, in string order. */
  function ModelosOf(vs: seq<Vehicle>, marcas: seq<string>): seq<string> {
    if |marcas| == 0 then SortDistinct(Modelos(vs), StringLe)
    else SortDistinct(Modelos(Filter(vs, BrandTest(marcas))), StringLe)
  }

  /** `getModelosByMarcas` */
  function GetModelosByMarcas(marcas: seq<string>): seq<string> {
    ModelosOf(Catalogue, marcas)
  }

  /** With no brands the answer is the model facet; otherwise it is the
      models of exactly the vehicles of the listed brands, once each, in
      strictly increasing string order. */
  lemma {:induction false} ModelosOfSpec(vs: seq<Vehicle>, marcas: seq<string>)
    ensures |marcas| == 0 ==> ModelosOf(vs, marcas) == FacetsOf(vs).modelos
    ensures StrictlyAscending(ModelosOf(vs, marcas))
    ensures |marcas| > 0 ==> forall x :: x in ModelosOf(vs, marcas) <==>
              exists v :: v in vs && v.marca in marcas && v.modelo == x
  {
    if |marcas| == 0 {
      DistinctStrings(Modelos(vs));
    } else {
      var chosen := Filter(vs, BrandTest(marcas));
      DistinctStrings(Modelos(chosen));
      forall x ensures x in ModelosOf(vs, marcas) <==>
          exists v :: v in vs && v.marca in marcas && v.modelo == x
      {
        if x in ModelosOf(vs, marcas) {
          assert x in Modelos(chosen);
          var v :| v in chosen && v.modelo == x;
          assert v in vs && v.marca in marcas;
        }
        if exists v :: v in vs && v.marca in marcas && v.modelo == x {
          var v :| v in vs && v.marca in marcas && v.modelo == x;
          assert v in chosen;
          assert x in Modelos(chosen);
        }
      }
    }
  }

  // ----------------------------------------------------------------- detail

  /** `vehicleGetById`: the stored detail, or nothing. */
  function VehicleGetById(id: string): (r: Option<VehicleDetail>)
    ensures r.Some? <==> id in VehicleDetails
    ensures r.Some? ==> r.value == VehicleDetails[id] && r.value.id == id
  {
    if id in VehicleDetails then Some(VehicleDetails[id]) else None
  }

  /** Only vehicles "1" and "2" of the catalogue have a detail record; the
      other three are listed but cannot be opened. */
  lemma DetailCoverage()
    ensures forall id :: VehicleGetById(id).Some? <==> id == "1" || id == "2"
    ensures forall v :: v in Catalogue ==> (VehicleGetById(v.id).Some? <==> v.id == "1" || v.id == "2")
    ensures |Catalogue| == 5
  {
  }
}
