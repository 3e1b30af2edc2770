/** The backend's vehicle records, filter criteria, sort orders and listing
    parameters (backend/src/services/vehicle/vehicleTypes.ts). */
module VehicleTypes {
  import opened Wrappers

  /** A catalogue entry. Prices are whole currency units. */
  datatype Vehicle = Vehicle(
    id: string,
    modelo: string,
    marca: string,
    ano: int,
    preco: int,
    imagemPrincipal: string,
    quilometragem: Option<int>,
    cambio: Option<string>)

  /** Optional filter criteria; `None` is an absent property. Price bounds
      come from `parseFloat` and may have a fractional part. */
  datatype VehicleFilters = VehicleFilters(
    marcas: Option<seq<string>>,
    modelos: Option<seq<string>>,
    anoMin: Option<int>,
    anoMax: Option<int>,
    precoMin: Option<real>,
    precoMax: Option<real>,
    cambios: Option<seq<string>>)

  /** The empty filter object `{}`. */
  const NoFilters := VehicleFilters(None, None, None, None, None, None, None)

  datatype SortOrder = Relevancia | PrecoAsc | PrecoDesc | AnoDesc | AnoAsc | ModeloAsc | ModeloDesc

  /** The string value of each member of the `SortOrder` enum. */
  function SortOrderValue(o: SortOrder): string {
    match o
    case Relevancia => "relevancia"
    case PrecoAsc => "preco_asc"
    case PrecoDesc => "preco_desc"
    case AnoDesc => "ano_desc"
    case AnoAsc => "ano_asc"
    case ModeloAsc => "modelo_asc"
    case ModeloDesc => "modelo_desc"
  }

  /** `Object.values(SortOrder).includes(s)`, giving the member found. */
  function ParseSortOrder(s: string): (r: Option<SortOrder>)
    ensures r.Some? ==> SortOrderValue(r.value) == s
    ensures r.None? ==> forall o :: SortOrderValue(o) != s
  {
    if s == "relevancia" then Some(Relevancia)
    else if s == "preco_asc" then Some(PrecoAsc)
    else if s == "preco_desc" then Some(PrecoDesc)
    else if s == "ano_desc" then Some(AnoDesc)
    else if s == "ano_asc" then Some(AnoAsc)
    else if s == "modelo_asc" then Some(ModeloAsc)
    else if s == "modelo_desc" then Some(ModeloDesc)
    else None
  }

  /** Every enum member is recognised from its own string value. */
  lemma ParseSortOrderValue(o: SortOrder)
    ensures ParseSortOrder(SortOrderValue(o)) == Some(o)
  {
  }

  datatype VehicleListParams = VehicleListParams(
    page: Option<int>,
    pageSize: Option<int>,
    filters: Option<VehicleFilters>,
    sortBy: Option<SortOrder>)

  datatype VehicleListResponse = VehicleListResponse(
    vehicles: seq<Vehicle>,
    total: nat,
    page: int,
    pageSize: int,
    totalPages: nat)

  datatype FilterOptions = FilterOptions(
    marcas: seq<string>,
    modelos: seq<string>,
    anos: seq<int>,
    cambios: seq<string>)

  /** The headline fields of a detail record; the photo gallery,
      specifications, item lists, history and sale conditions of the records
      are not part of this model. */
  datatype VehicleDetail = VehicleDetail(
    id: string,
    tituloAnuncio: string,
    preco: int,
    statusVeiculo: string,
    urlCompartilhamento: string)
}
