/** The HTTP handlers of the vehicle listing
    (backend/src/api/v1/external/vehicle/controller.ts): the query string of
    a listing request is parsed and checked one parameter after the other,
    the first failed check answers 400 with its error code, and a valid
    request gets a page of the catalogue, moved back to the last page when
    it asks for a page past the end. */
module VehicleController {
  import opened Wrappers
  import opened Text
  import opened Arrays
  import opened VehicleTypes
  import opened VehicleLogic
  import opened FirstFailure

  /** A price parameter: absent (missing or empty), present but read by
      `parseFloat` as `NaN`, or present with the number read. */
  datatype PriceParam = NoPrice | PriceNaN | Price(value: real)

  /** The query string of a listing request; `None` is a missing
      parameter. */
  datatype ListQuery = ListQuery(
    page: Option<string>,
    pageSize: Option<string>,
    sortBy: Option<string>,
    marcas: Option<string>,
    modelos: Option<string>,
    anoMin: Option<string>,
    anoMax: Option<string>,
    precoMin: PriceParam,
    precoMax: PriceParam,
    cambios: Option<string>)

  /** The 400 answers of the listing, one per error code. */
  datatype ListError =
    | PageNumberMustBeGreaterThanZero
    | PageSizeMustBeOneOf12_24_36_48
    | InvalidSortOrder
    | InvalidMinimumYear
    | InvalidMaximumYear
    | MinimumYearCannotBeGreaterThanMaximumYear
    | InvalidMinimumPrice
    | InvalidMaximumPrice
    | MinimumPriceCannotBeGreaterThanMaximumPrice
    | InvalidTransmissionType(invalid: seq<string>)

  function ErrorCode(e: ListError): string {
    match e
    case PageNumberMustBeGreaterThanZero => "pageNumberMustBeGreaterThanZero"
    case PageSizeMustBeOneOf12_24_36_48 => "pageSizeMustBeOneOf12_24_36_48"
    case InvalidSortOrder => "invalidSortOrder"
    case InvalidMinimumYear => "invalidMinimumYear"
    case InvalidMaximumYear => "invalidMaximumYear"
    case MinimumYearCannotBeGreaterThanMaximumYear => "minimumYearCannotBeGreaterThanMaximumYear"
    case InvalidMinimumPrice => "invalidMinimumPrice"
    case InvalidMaximumPrice => "invalidMaximumPrice"
    case MinimumPriceCannotBeGreaterThanMaximumPrice => "minimumPriceCannotBeGreaterThanMaximumPrice"
    case InvalidTransmissionType(_) => "invalidTransmissionType"
  }

  const ValidPageSizes: seq<int> := [12, 24, 36, 48]
  const ValidCambios: seq<string> := ["Manual", "Automático", "CVT", "Semi-automático"]
  const MinimumYear := 1900

  /** A query parameter is truthy when it is present and not empty. */
  predicate Truthy(x: Option<string>) {
    x.Some? && x.value != ""
  }

  /** `parseInt(x) || d`: a missing, unreadable or zero number becomes `d`. */
  function IntOr(x: Option<string>, d: int): int {
    var n := ParseInt(x.GetOr(""));
    if n.Some? && n.value != 0 then n.value else d
  }

  function PageNumber(q: ListQuery): int {
    IntOr(q.page, 1)
  }

  function PageSizeNumber(q: ListQuery): int {
    IntOr(q.pageSize, 12)
  }

  /** `req.query.sortBy || 'relevancia'` */
  function SortText(q: ListQuery): string {
    if Truthy(q.sortBy) then q.sortBy.value else SortOrderValue(Relevancia)
  }

  /** `s.split(',').map((m) => m.trim())` */
  function CommaList(s: string): seq<string> {
    TrimAll(Split(s, ','))
  }

  function NotValidCambio(): string -> bool {
    c => c !in ValidCambios
  }

  /** The transmissions of a request that are not one of the four known. */
  function InvalidCambios(q: ListQuery): seq<string> {
    if Truthy(q.cambios) then Filter(CommaList(q.cambios.value), NotValidCambio()) else []
  }

  /** A year parameter, when it is truthy and reads as a number. */
  function YearValue(x: Option<string>): Option<int> {
    if Truthy(x) && ParseInt(x.value).Some? then Some(ParseInt(x.value).value) else None
  }

  predicate YearParamOk(x: Option<string>) {
    Truthy(x) ==> YearValue(x).Some? && YearValue(x).value >= MinimumYear
  }

  function PriceValue(p: PriceParam): Option<real> {
    if p.Price? then Some(p.value) else None
  }

  predicate PriceParamOk(p: PriceParam) {
    p != PriceNaN && (p.Price? ==> p.value >= 0.0)
  }

  /** The year range is checked when both years are truthy numbers. */
  predicate YearRangeOk(q: ListQuery) {
    var lo, hi := YearValue(q.anoMin), YearValue(q.anoMax);
    lo.Some? && lo.value != 0 && hi.Some? && hi.value != 0 ==> lo.value <= hi.value
  }

  /** The price range is checked when both prices are truthy numbers: a
      zero bound does not take part. */
  predicate PriceRangeOk(q: ListQuery) {
    var lo, hi := PriceValue(q.precoMin), PriceValue(q.precoMax);
    lo.Some? && lo.value != 0.0 && hi.Some? && hi.value != 0.0 ==> lo.value <= hi.value
  }

  /** The page, page size and sort order checks paired with the errors
      they answer, in the handler's order. */
  function PagingChecks(q: ListQuery): seq<(bool, ListError)> {
    [ (PageNumber(q) >= 1, PageNumberMustBeGreaterThanZero),
      (PageSizeNumber(q) in ValidPageSizes, PageSizeMustBeOneOf12_24_36_48),
      (ParseSortOrder(SortText(q)).Some?, InvalidSortOrder) ]
  }

  function YearChecks(q: ListQuery): seq<(bool, ListError)> {
    [ (YearParamOk(q.anoMin), InvalidMinimumYear),
      (YearParamOk(q.anoMax), InvalidMaximumYear),
      (YearRangeOk(q), MinimumYearCannotBeGreaterThanMaximumYear) ]
  }

  function PriceChecks(q: ListQuery): seq<(bool, ListError)> {
    [ (PriceParamOk(q.precoMin), InvalidMinimumPrice),
      (PriceParamOk(q.precoMax), InvalidMaximumPrice),
      (PriceRangeOk(q), MinimumPriceCannotBeGreaterThanMaximumPrice) ]
  }

  function CambioChecks(q: ListQuery): seq<(bool, ListError)> {
    [ (InvalidCambios(q) == [], InvalidTransmissionType(InvalidCambios(q))) ]
  }

  /** Every check the handler makes paired with the error it answers, in
      the order it makes them. */
  function Checks(q: ListQuery): seq<(bool, ListError)> {
    PagingChecks(q) + FilterChecks(q)
  }

  function FilterChecks(q: ListQuery): seq<(bool, ListError)> {
    YearChecks(q) + (PriceChecks(q) + CambioChecks(q))
  }

  /** The filters a valid request asks for. */
  function QueryFilters(q: ListQuery): VehicleFilters {
    VehicleFilters(
      if Truthy(q.marcas) then Some(CommaList(q.marcas.value)) else None,
      if Truthy(q.modelos) then Some(CommaList(q.modelos.value)) else None,
      YearValue(q.anoMin),
      YearValue(q.anoMax),
      PriceValue(q.precoMin),
      PriceValue(q.precoMax),
      if Truthy(q.cambios) then Some(CommaList(q.cambios.value)) else None)
  }

  /** The listing parameters of a request, at the page it asks for. */
  function QueryParams(q: ListQuery): VehicleListParams {
    VehicleListParams(Some(PageNumber(q)), Some(PageSizeNumber(q)), Some(QueryFilters(q)),
      ParseSortOrder(SortText(q)))
  }

  /** The page, page size and sort order of a request once checked. */
  datatype Paging = Paging(page: int, pageSize: int, sortBy: SortOrder)

  /** The first three checks: the error of the first that fails, or a page
      from 1 on, a page size among the four allowed and a known sort
      order, as the request gives them. */
  function PagingOf(q: ListQuery): (r: Result<Paging, ListError>)
    ensures r.Success? <==> PageNumber(q) >= 1 && PageSizeNumber(q) in ValidPageSizes
                            && ParseSortOrder(SortText(q)).Some?
    ensures r.Success? ==> && r.value.page == PageNumber(q)
                           && r.value.pageSize == PageSizeNumber(q)
                           && Some(r.value.sortBy) == ParseSortOrder(SortText(q))
  {
    if PageNumber(q) < 1 then Failure(PageNumberMustBeGreaterThanZero)
    else if PageSizeNumber(q) !in ValidPageSizes then Failure(PageSizeMustBeOneOf12_24_36_48)
    else match ParseSortOrder(SortText(q))
      case None => Failure(InvalidSortOrder)
      case Some(order) => Success(Paging(PageNumber(q), PageSizeNumber(q), order))
  }

  /** The year checks: a truthy year must read as a number from 1900 on,
      and two non-zero years must not be in reverse order. */
  function YearsOf(q: ListQuery): (r: Result<(Option<int>, Option<int>), ListError>)
    ensures r.Success? <==> YearParamOk(q.anoMin) && YearParamOk(q.anoMax) && YearRangeOk(q)
    ensures r.Success? ==> r.value == (YearValue(q.anoMin), YearValue(q.anoMax))
  {
    if !YearParamOk(q.anoMin) then Failure(InvalidMinimumYear)
    else if !YearParamOk(q.anoMax) then Failure(InvalidMaximumYear)
    else if !YearRangeOk(q) then Failure(MinimumYearCannotBeGreaterThanMaximumYear)
    else Success((YearValue(q.anoMin), YearValue(q.anoMax)))
  }

  /** The price checks: a given price must be a number that is not
      negative, and two non-zero prices must not be in reverse order. */
  function PricesOf(q: ListQuery): (r: Result<(Option<real>, Option<real>), ListError>)
    ensures r.Success? <==> PriceParamOk(q.precoMin) && PriceParamOk(q.precoMax) && PriceRangeOk(q)
    ensures r.Success? ==> r.value == (PriceValue(q.precoMin), PriceValue(q.precoMax))
  {
    if !PriceParamOk(q.precoMin) then Failure(InvalidMinimumPrice)
    else if !PriceParamOk(q.precoMax) then Failure(InvalidMaximumPrice)
    else if !PriceRangeOk(q) then Failure(MinimumPriceCannotBeGreaterThanMaximumPrice)
    else Success((PriceValue(q.precoMin), PriceValue(q.precoMax)))
  }

  /** The transmission check: every listed transmission must be one of the
      four known, or the unknown ones are reported. */
  function CambiosOf(q: ListQuery): (r: Result<Option<seq<string>>, ListError>)
    ensures r.Failure? <==> InvalidCambios(q) != []
    ensures r.Failure? ==> r.error == InvalidTransmissionType(InvalidCambios(q))
    ensures r.Success? ==> r.value == QueryFilters(q).cambios
  {
    if InvalidCambios(q) != [] then Failure(InvalidTransmissionType(InvalidCambios(q)))
    else if Truthy(q.cambios) then Success(Some(CommaList(q.cambios.value)))
    else Success(None)
  }

  /** The filter checks, in the handler's order: the error of the first
      that fails, or the filters the request asks for. */
  function FiltersOf(q: ListQuery): (r: Result<VehicleFilters, ListError>)
    ensures r.Success? ==> r.value == QueryFilters(q)
  {
    match YearsOf(q)
    case Failure(e) => Failure(e)
    case Success(years) =>
      match PricesOf(q)
      case Failure(e) => Failure(e)
      case Success(prices) =>
        match CambiosOf(q)
        case Failure(e) => Failure(e)
        case Success(cambios) =>
          Success(VehicleFilters(QueryFilters(q).marcas, QueryFilters(q).modelos,
            years.0, years.1, prices.0, prices.1, cambios))
  }

  /** All the checks: the error of the first that fails, or the listing
      parameters of an accepted request, whose page is at least 1, whose
      page size is one of the four allowed and whose sort order is known. */
  function Validate(q: ListQuery): (r: Result<VehicleListParams, ListError>)
    ensures r.Success? ==> r.value == QueryParams(q)
    ensures r.Success? ==> && r.value.page.value >= 1
                           && r.value.pageSize.value in ValidPageSizes
                           && r.value.sortBy.Some?
  {
    match PagingOf(q)
    case Failure(e) => Failure(e)
    case Success(paging) =>
      match FiltersOf(q)
      case Failure(e) => Failure(e)
      case Success(filters) =>
        Success(VehicleListParams(Some(paging.page), Some(paging.pageSize), Some(filters), Some(paging.sortBy)))
  }

  /** Parameters that passed the handler's checks. */
  predicate Accepted(p: VehicleListParams) {
    p.page.Some? && p.page.value >= 1 && p.pageSize.Some? && p.pageSize.value in ValidPageSizes
  }

  /** The page an accepted request gets: the requested page, or the last
      page when it asks for one past the end of a non-empty listing. */
  function Adjust(p: VehicleListParams): VehicleListResponse
    requires Accepted(p)
  {
    var first := VehicleList(p);
    if first.totalPages > 0 && p.page.value > first.totalPages
    then VehicleList(p.(page := Some(first.totalPages)))
    else first
  }

  /** What the listing answers. */
  function Respond(q: ListQuery): Result<VehicleListResponse, ListError> {
    match Validate(q)
    case Failure(e) => Failure(e)
    case Success(p) => Success(Adjust(p))
  }

  /** The page, page size and sort order checks of `listHandler`. */
  method ReadPaging(q: ListQuery) returns (r: Result<Paging, ListError>)
    ensures r == PagingOf(q)
  {
    var page := PageNumber(q);
    var pageSize := PageSizeNumber(q);
    var sortText := SortText(q);
    if page < 1 {
      return Failure(PageNumberMustBeGreaterThanZero);
    }
    if pageSize !in ValidPageSizes {
      return Failure(PageSizeMustBeOneOf12_24_36_48);
    }
    var sortBy := ParseSortOrder(sortText);
    if sortBy.None? {
      return Failure(InvalidSortOrder);
    }
    return Success(Paging(page, pageSize, sortBy.value));
  }

  /** The year parameters of `listHandler` and their checks. */
  method ReadYears(q: ListQuery) returns (r: Result<(Option<int>, Option<int>), ListError>)
    ensures r == YearsOf(q)
  {
    var anoMin, anoMax := None, None;
    if Truthy(q.anoMin) {
      anoMin := ParseInt(q.anoMin.value);
      if anoMin.None? || anoMin.value < MinimumYear {
        assert !YearParamOk(q.anoMin);
        return Failure(InvalidMinimumYear);
      }
    }
    assert YearParamOk(q.anoMin) && anoMin == YearValue(q.anoMin);
    if Truthy(q.anoMax) {
      anoMax := ParseInt(q.anoMax.value);
      if anoMax.None? || anoMax.value < MinimumYear {
        assert !YearParamOk(q.anoMax);
        return Failure(InvalidMaximumYear);
      }
    }
    assert YearParamOk(q.anoMax) && anoMax == YearValue(q.anoMax);
    if anoMin.Some? && anoMin.value != 0 && anoMax.Some? && anoMax.value != 0 && anoMin.value > anoMax.value {
      return Failure(MinimumYearCannotBeGreaterThanMaximumYear);
    }
    return Success((anoMin, anoMax));
  }

  /** The price parameters of `listHandler` and their checks. */
  method ReadPrices(q: ListQuery) returns (r: Result<(Option<real>, Option<real>), ListError>)
    ensures r == PricesOf(q)
  {
    var precoMin, precoMax := None, None;
    if q.precoMin != NoPrice {
      if q.precoMin == PriceNaN || q.precoMin.value < 0.0 {
        return Failure(InvalidMinimumPrice);
      }
      precoMin := Some(q.precoMin.value);
    }
    if q.precoMax != NoPrice {
      if q.precoMax == PriceNaN || q.precoMax.value < 0.0 {
        return Failure(InvalidMaximumPrice);
      }
      precoMax := Some(q.precoMax.value);
    }
    if precoMin.Some? && precoMin.value != 0.0 && precoMax.Some? && precoMax.value != 0.0
      && precoMin.value > precoMax.value
    {
      return Failure(MinimumPriceCannotBeGreaterThanMaximumPrice);
    }
    return Success((precoMin, precoMax));
  }

  /** The transmission parameter of `listHandler` and its check. */
  method ReadCambios(q: ListQuery) returns (r: Result<Option<seq<string>>, ListError>)
    ensures r == CambiosOf(q)
  {
    if !Truthy(q.cambios) {
      return Success(None);
    }
    var cambios := CommaList(q.cambios.value);
    var invalid := Filter(cambios, NotValidCambio());
    if |invalid| > 0 {
      return Failure(InvalidTransmissionType(invalid));
    }
    return Success(Some(cambios));
  }

  /** The filters `listHandler` builds, one query parameter after the
      other, with the checks it makes along the way. */
  method ReadFilters(q: ListQuery) returns (r: Result<VehicleFilters, ListError>)
    ensures r == FiltersOf(q)
  {
    var filters := NoFilters;
    if Truthy(q.marcas) {
      filters := filters.(marcas := Some(CommaList(q.marcas.value)));
    }
    if Truthy(q.modelos) {
      filters := filters.(modelos := Some(CommaList(q.modelos.value)));
    }
    var years := ReadYears(q);
    if years.Failure? {
      return Failure(years.error);
    }
    filters := filters.(anoMin := years.value.0, anoMax := years.value.1);
    var prices := ReadPrices(q);
    if prices.Failure? {
      return Failure(prices.error);
    }
    filters := filters.(precoMin := prices.value.0, precoMax := prices.value.1);
    var cambios := ReadCambios(q);
    if cambios.Failure? {
      return Failure(cambios.error);
    }
    filters := filters.(cambios := cambios.value);
    return Success(filters);
  }

  /** `listHandler`: the checks, then the page, moved back to the last
      page when the request is past the end. */
  method ListHandler(q: ListQuery) returns (r: Result<VehicleListResponse, ListError>)
    ensures r == Respond(q)
  {
    var paging := ReadPaging(q);
    if paging.Failure? {
      return Failure(paging.error);
    }
    var filters := ReadFilters(q);
    if filters.Failure? {
      return Failure(filters.error);
    }
    var page, pageSize := paging.value.page, paging.value.pageSize;
    var params := VehicleListParams(Some(page), Some(pageSize), Some(filters.value), Some(paging.value.sortBy));
    var result := VehicleList(params);
    if result.totalPages > 0 && page > result.totalPages {
      result := VehicleList(params.(page := Some(result.totalPages)));
    }
    return Success(result);
  }

  lemma PagingFirstFailure(q: ListQuery)
    ensures RefusesAsFirstFailure(PagingOf(q), PagingChecks(q))
  {
    var cs := PagingChecks(q);
    assert cs[0].0 ==> cs[1..][0] == cs[1];
    assert cs[0].0 && cs[1].0 ==> cs[1..][1..][0] == cs[2];
  }

  lemma YearsFirstFailure(q: ListQuery)
    ensures RefusesAsFirstFailure(YearsOf(q), YearChecks(q))
  {
    var cs := YearChecks(q);
    assert cs[0].0 ==> cs[1..][0] == cs[1];
    assert cs[0].0 && cs[1].0 ==> cs[1..][1..][0] == cs[2];
  }

  lemma PricesFirstFailure(q: ListQuery)
    ensures RefusesAsFirstFailure(PricesOf(q), PriceChecks(q))
  {
    var cs := PriceChecks(q);
    assert cs[0].0 ==> cs[1..][0] == cs[1];
    assert cs[0].0 && cs[1].0 ==> cs[1..][1..][0] == cs[2];
  }

  lemma CambiosFirstFailure(q: ListQuery)
    ensures RefusesAsFirstFailure(CambiosOf(q), CambioChecks(q))
  {
  }

  /** The filter checks refuse a request with their first failure. */
  lemma FiltersFirstFailure(q: ListQuery)
    ensures RefusesAsFirstFailure(FiltersOf(q), FilterChecks(q))
  {
    YearsFirstFailure(q);
    PricesFirstFailure(q);
    CambiosFirstFailure(q);
    var inner: Result<Option<seq<string>>, ListError> :=
      if PricesOf(q).Failure? then Failure(PricesOf(q).error) else CambiosOf(q);
    Sequenced(PricesOf(q), CambiosOf(q), inner, PriceChecks(q), CambioChecks(q));
    Sequenced(YearsOf(q), inner, FiltersOf(q), YearChecks(q), PriceChecks(q) + CambioChecks(q));
  }

  /** A listing request is refused exactly when one of its checks fails,
      and then with the error of the earliest failed check. */
  lemma ValidateIsFirstFailure(q: ListQuery)
    ensures RefusesAsFirstFailure(Validate(q), Checks(q))
  {
    PagingFirstFailure(q);
    FiltersFirstFailure(q);
    Sequenced(PagingOf(q), FiltersOf(q), Validate(q), PagingChecks(q), FilterChecks(q));
  }

  /** Every page of the same request is a page of the same listing. */
  lemma ListPage(p: VehicleListParams, page: int)
    requires p.pageSize.Some? && p.pageSize.value >= 0
    ensures VehicleList(p.(page := Some(page))) == Paginate(Listing(Catalogue, p), Some(page), p.pageSize)
  {
    assert Listing(Catalogue, p.(page := Some(page))) == Listing(Catalogue, p);
  }

  /** The page a valid request gets, in paging terms: the requested page,
      or the last one when the request is past the end of a non-empty
      listing. It is a real page (at most the page count) holding at least
      one vehicle when anything matches, and an empty page at the
      requested position otherwise. */
  lemma {:induction false} ClampedPage(listing: seq<Vehicle>, page: int, size: nat)
    requires page >= 1 && size > 0
    ensures var first := Paginate(listing, Some(page), Some(size));
      var p := if first.totalPages > 0 && page > first.totalPages then first.totalPages else page;
      var r := Paginate(listing, Some(p), Some(size));
      && r.page >= 1
      && r.pageSize == size
      && r.total == |listing|
      && (r.total > 0 ==> r.page <= r.totalPages && |r.vehicles| > 0)
      && (r.total == 0 ==> r.vehicles == [] && r.page == page)
  {
    var first := Paginate(listing, Some(page), Some(size));
    var p := if first.totalPages > 0 && page > first.totalPages then first.totalPages else page;
    PaginateCounts(listing, Some(page), Some(size));
    PaginateCounts(listing, Some(p), Some(size));
    if |listing| > 0 {
      PageWithinCountIsFilled(listing, p, size);
    } else {
      PaginateContents(listing, Some(p), Some(size));
    }
  }

  /** An accepted request lists a page size among 12, 24, 36 and 48 and a
      page from 1 on; when anything matches, the page it returns is a real
      page (at most the page count) and holds at least one vehicle; when
      nothing matches, the page is empty and the requested page is kept. */
  lemma AdjustInRange(p: VehicleListParams)
    requires Accepted(p)
    ensures var r := Adjust(p);
      && r.pageSize == p.pageSize.value
      && r.page >= 1
      && (r.total > 0 ==> r.page <= r.totalPages && |r.vehicles| > 0)
      && (r.total == 0 ==> r.vehicles == [] && r.page == p.page.value)
  {
    var listing := Listing(Catalogue, p);
    ListPage(p, p.page.value);
    assert p.(page := Some(p.page.value)) == p;
    var first := VehicleList(p);
    if first.totalPages > 0 && p.page.value > first.totalPages {
      ListPage(p, first.totalPages);
    }
    ClampedPage(listing, p.page.value, p.pageSize.value);
  }

  /** Every vehicle an accepted request lists is in the catalogue and
      passes the filters it asks for. */
  lemma AdjustMatches(p: VehicleListParams)
    requires Accepted(p)
    ensures forall v :: v in Adjust(p).vehicles ==> v in Catalogue && Matches(p.filters.GetOr(NoFilters), v)
  {
    var first := VehicleList(p);
    if first.totalPages > 0 && p.page.value > first.totalPages {
      ListVehiclesSound(Catalogue, p.(page := Some(first.totalPages)));
    } else {
      ListVehiclesSound(Catalogue, p);
    }
  }

  /** What an accepted listing request answers: a page of the vehicles
      matching its filters, within range as `AdjustInRange` states. */
  lemma ListAnswerInRange(q: ListQuery)
    requires Respond(q).Success?
    ensures var r := Respond(q).value;
      && r.pageSize in ValidPageSizes
      && r.page >= 1
      && (r.total > 0 ==> r.page <= r.totalPages && |r.vehicles| > 0)
      && (r.total == 0 ==> r.vehicles == [] && r.page == PageNumber(q))
      && (forall v :: v in r.vehicles ==> v in Catalogue && Matches(QueryFilters(q), v))
  {
    var p := Validate(q).value;
    AdjustInRange(p);
    AdjustMatches(p);
  }

  const ZeroMaximumQuery := ListQuery(None, None, None, None, None, None, None, Price(5.0), Price(0.0), None)

  /** A minimum price with a maximum of zero escapes the range check,
      because a zero bound is falsy: the request is accepted, with both
      bounds among its filters. */
  lemma ZeroMaximumAccepted()
    ensures Validate(ZeroMaximumQuery).Success?
    ensures Validate(ZeroMaximumQuery).value.filters == Some(ZeroMaximumFilters)
  {
    ParseIntBlank("");
  }

  const ZeroMaximumFilters := VehicleFilters(None, None, None, None, Some(5.0), Some(0.0), None)

  /** With both bounds applied no vehicle costs at least 5 and at most 0:
      the accepted request lists nothing. */
  lemma ZeroMaximumListsNothing(vs: seq<Vehicle>, p: VehicleListParams)
    requires p.filters == Some(ZeroMaximumFilters)
    ensures Listing(vs, p) == []
  {
    ListingSpec(vs, p);
    HeadIsMember(Listing(vs, p));
  }

  lemma HeadIsMember(s: seq<Vehicle>)
    ensures s != [] ==> s[0] in s
  {
  }

  /** The brands a `marcas` parameter asks for: the comma-separated,
      trimmed entries of a truthy parameter, or none. */
  function RequestedBrands(marcas: Option<string>): seq<string> {
    if Truthy(marcas) then CommaList(marcas.value) else []
  }

  /** `modelosByMarcasHandler` */
  function ModelosHandler(marcas: Option<string>): seq<string> {
    GetModelosByMarcas(RequestedBrands(marcas))
  }

  /** Without brands the handler answers the whole model facet. */
  lemma ModelosHandlerWithoutBrands(marcas: Option<string>)
    requires !Truthy(marcas)
    ensures ModelosHandler(marcas) == GetFilterOptions().modelos
  {
    ModelosOfSpec(Catalogue, []);
  }

  /** Brands written joined by commas, without commas or surrounding blanks
      in them, are read back one by one. */
  lemma {:induction false} RequestedBrandsJoin(brands: seq<string>)
    requires |brands| >= 1 && Join(brands, ',') != ""
    requires forall k :: 0 <= k < |brands| ==> ',' !in brands[k] && Trim(brands[k]) == brands[k]
    ensures RequestedBrands(Some(Join(brands, ','))) == brands
  {
    SplitJoin(brands, ',');
  }
}
