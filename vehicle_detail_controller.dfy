/** The HTTP handler of the vehicle detail page
    (backend/src/api/v1/external/vehicle/detail/controller.ts): a blank id
    is refused with 400, an id without a detail record answers 404, and any
    other id answers with its record. */
module VehicleDetailController {
  import opened Wrappers
  import opened Text
  import opened VehicleTypes
  import opened VehicleLogic

  /** The three answers of the handler. */
  datatype DetailAnswer =
    | VehicleIdRequired
    | VehicleNotFound
    | Found(detail: VehicleDetail)

  /** The HTTP status of an answer. */
  function Status(a: DetailAnswer): int {
    match a
    case VehicleIdRequired => 400
    case VehicleNotFound => 404
    case Found(_) => 200
  }

  /** The `id` path parameter is required and must not be blank; the lookup
      is made with the id exactly as received, untrimmed. */
  function GetHandler(id: Option<string>): (r: DetailAnswer)
    ensures r.VehicleIdRequired? <==> id.None? || Trim(id.value) == ""
    ensures r.VehicleNotFound? <==> id.Some? && Trim(id.value) != "" && id.value !in VehicleDetails
    ensures r.Found? ==> id.Some? && id.value in VehicleDetails && r.detail == VehicleDetails[id.value]
    ensures r.Found? ==> r.detail.id == id.value
  {
    if id.None? || Trim(id.value) == "" then VehicleIdRequired
    else match VehicleGetById(id.value)
      case None => VehicleNotFound
      case Some(v) => Found(v)
  }

  /** An id made only of white space is refused before any lookup, and so
      is a missing one. */
  lemma BlankIdRefused(id: string)
    requires AllWhitespace(id)
    ensures GetHandler(Some(id)) == VehicleIdRequired && Status(GetHandler(Some(id))) == 400
  {
    TrimEmptyIff(id);
  }

  /** The record answered for an id carries that id; only "1" and "2"
      are found. */
  lemma FoundExactly(id: string)
    ensures GetHandler(Some(id)).Found? <==> id == "1" || id == "2"
  {
    if id in VehicleDetails {
      KnownIdNotBlank(id);
    }
  }

  lemma KnownIdNotBlank(id: string)
    requires id in VehicleDetails
    ensures id == "1" || id == "2"
    ensures |id| == 1 && !IsWhitespace(id[0])
    ensures Trim(id) != ""
  {
    assert id == "1" || id == "2";
    assert |id| == 1 && (id[0] == '1' || id[0] == '2');
    TrimEmptyIff(id);
  }

  /** White space before a known id is not trimmed before the lookup:
      " 1" passes the blank check and is then not found. */
  lemma PaddedIdNotFound(pad: string, id: string)
    requires pad != [] && AllWhitespace(pad) && id in VehicleDetails
    ensures GetHandler(Some(pad + id)) == VehicleNotFound
    ensures Status(GetHandler(Some(pad + id))) == 404
  {
    KnownIdNotBlank(id);
    PaddedNotBlank(pad, id);
    PaddedUnknown(pad, id);
  }

  lemma PaddedNotBlank(pad: string, id: string)
    requires id != [] && !IsWhitespace(id[0])
    ensures Trim(pad + id) != ""
  {
    var padded := pad + id;
    assert padded[|pad|] == id[0];
    TrimEmptyIff(padded);
  }

  lemma PaddedUnknown(pad: string, id: string)
    requires pad != [] && (id == "1" || id == "2")
    ensures pad + id !in VehicleDetails
  {
    assert |pad + id| >= 2 && VehicleDetails.Keys == {"1", "2"};
  }
}
