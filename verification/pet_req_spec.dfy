/** The descriptor of every pet operation: which configured endpoint it
    targets, which body it carries and which query parameters it sets. */
module PetReqSpec {
  import opened Base
  import opened Text
  import opened ConfigurationReader
  import opened CommonRequestSpec
  import DataFactory

  const STATUS_ENDPOINT_KEY := "getStatusEndPoint"
  const ADD_PET_ENDPOINT_KEY := "addNewPetEndPoint"
  const PET_BY_ID_ENDPOINT_KEY := "getPetByIdEndPoint"
  const UPDATE_ENDPOINT_KEY := "updateNameEndPoint"
  const DELETE_ENDPOINT_KEY := "deleteByIdEndPoint"

  /** A configured endpoint with the pet id appended directly, no separator
      inserted; a missing endpoint key renders as "null". */
  function IdEndpoint(cfg: Properties, key: string, id: string): (e: Option<string>)
    ensures e.Some?
    ensures key in cfg ==> e.value == cfg[key] + id
    ensures key !in cfg ==> e.value == "null" + id
  {
    Some(Show(Get(cfg, key)) + id)
  }

  /** `getPetStatusReqSpec`: one query parameter `status` and, since the body
      argument is null, an empty-string body. */
  function StatusSpec(cfg: Properties, status: string): (r: Request)
    ensures r.query == map["status" := status]
    ensures r.body == Some("") && r.pathParams == map[] && r.headers == map[]
    ensures r.baseUri == FullUri(cfg, Get(cfg, STATUS_ENDPOINT_KEY))
  {
    Build(cfg, Get(cfg, STATUS_ENDPOINT_KEY), None, Some(map["status" := status]), None)
  }

  /** `addNewPetReqSpec(id, name)`. */
  function AddNewPetSpec(cfg: Properties, id: string, name: string): (r: Request)
    ensures r.body == Some(DataFactory.AddNewPetBody(id, name))
    ensures r.baseUri == FullUri(cfg, Get(cfg, ADD_PET_ENDPOINT_KEY))
    ensures r.query == map[] && r.pathParams == map[]
  {
    Build(cfg, Get(cfg, ADD_PET_ENDPOINT_KEY), Some(DataFactory.AddNewPetBody(id, name)), None, None)
  }

  /** `addNewPetReqSpec(id, name, status)`. */
  function AddNewPetSpecWithStatus(cfg: Properties, id: string, name: string, status: string): (r: Request)
    ensures r.body == Some(DataFactory.AddNewPetBodyWithStatus(id, name, status))
    ensures r.baseUri == FullUri(cfg, Get(cfg, ADD_PET_ENDPOINT_KEY))
  {
    Build(cfg, Get(cfg, ADD_PET_ENDPOINT_KEY), Some(DataFactory.AddNewPetBodyWithStatus(id, name, status)), None, None)
  }

  /** `getPetIdReqSpec`: the by-id endpoint with the id appended. */
  function PetIdSpec(cfg: Properties, id: string): (r: Request)
    ensures r.baseUri == FullUri(cfg, IdEndpoint(cfg, PET_BY_ID_ENDPOINT_KEY, id))
    ensures r.body == Some("") && r.query == map[] && r.pathParams == map[] && r.headers == map[]
  {
    Build(cfg, IdEndpoint(cfg, PET_BY_ID_ENDPOINT_KEY, id), None, None, None)
  }

  /** `updatePetReqSpec(id, name, tag)`. */
  function UpdatePetSpec(cfg: Properties, id: string, updateName: string, tagName: string): (r: Request)
    ensures r.body == Some(DataFactory.UpdatePetBody(id, updateName, tagName))
    ensures r.baseUri == FullUri(cfg, Get(cfg, UPDATE_ENDPOINT_KEY))
  {
    Build(cfg, Get(cfg, UPDATE_ENDPOINT_KEY), Some(DataFactory.UpdatePetBody(id, updateName, tagName)), None, None)
  }

  /** `updatePetReqSpec(id, name, tag, status)`. */
  function UpdatePetSpecWithStatus(cfg: Properties, id: string, updateName: string, tagName: string, status: string): (r: Request)
    ensures r.body == Some(DataFactory.UpdatePetBodyWithStatus(id, updateName, tagName, status))
    ensures r.baseUri == FullUri(cfg, Get(cfg, UPDATE_ENDPOINT_KEY))
  {
    Build(cfg, Get(cfg, UPDATE_ENDPOINT_KEY), Some(DataFactory.UpdatePetBodyWithStatus(id, updateName, tagName, status)), None, None)
  }

  /** `deletePetReqSpec`: the delete endpoint with the id appended. */
  function DeletePetSpec(cfg: Properties, id: string): (r: Request)
    ensures r.baseUri == FullUri(cfg, IdEndpoint(cfg, DELETE_ENDPOINT_KEY, id))
    ensures r.body == Some("") && r.query == map[] && r.pathParams == map[]
  {
    Build(cfg, IdEndpoint(cfg, DELETE_ENDPOINT_KEY, id), None, None, None)
  }

  /** `addMinimalPetReqSpec`. */
  function AddMinimalPetSpec(cfg: Properties, id: string, name: string): (r: Request)
    ensures r.body == Some(DataFactory.MinimalPetBody(id, name))
    ensures r.baseUri == FullUri(cfg, Get(cfg, ADD_PET_ENDPOINT_KEY))
  {
    Build(cfg, Get(cfg, ADD_PET_ENDPOINT_KEY), Some(DataFactory.MinimalPetBody(id, name)), None, None)
  }

  /** `addInvalidPetReqSpec`: the body without `photoUrls`. */
  function AddInvalidPetSpec(cfg: Properties, id: string): (r: Request)
    ensures r.body == Some(DataFactory.InvalidPetBodyMissingPhotoUrls(id))
    ensures r.baseUri == FullUri(cfg, Get(cfg, ADD_PET_ENDPOINT_KEY))
  {
    Build(cfg, Get(cfg, ADD_PET_ENDPOINT_KEY), Some(DataFactory.InvalidPetBodyMissingPhotoUrls(id)), None, None)
  }

  /** `addPetWithTagsReqSpec`. */
  function AddPetWithTagsSpec(cfg: Properties, id: string, name: string, tags: seq<string>): (r: Request)
    ensures r.body == Some(DataFactory.PetBodyWithMultipleTags(id, name, tags))
    ensures r.baseUri == FullUri(cfg, Get(cfg, ADD_PET_ENDPOINT_KEY))
  {
    Build(cfg, Get(cfg, ADD_PET_ENDPOINT_KEY), Some(DataFactory.PetBodyWithMultipleTags(id, name, tags)), None, None)
  }

  /** `getPetWithCustomHeaders`: the by-id descriptor plus the headers. */
  function CustomHeadersSpec(cfg: Properties, id: string, customHeaders: Option<map<string, string>>): (r: Request)
    ensures r == PetIdSpec(cfg, id).(headers := OrEmpty(customHeaders))
  {
    BuildWithHeaders(cfg, IdEndpoint(cfg, PET_BY_ID_ENDPOINT_KEY, id), None, None, None, customHeaders)
  }

  /** `getPetByMultipleStatusesReqSpec`: all statuses, comma-joined in order,
      in the single `status` parameter. */
  function MultipleStatusesSpec(cfg: Properties, statuses: seq<string>): (r: Request)
    ensures r.query.Keys == {"status"}
    ensures r.query["status"] == Join(",", statuses)
    ensures r == StatusSpec(cfg, Join(",", statuses))
  {
    Build(cfg, Get(cfg, STATUS_ENDPOINT_KEY), None, Some(map["status" := Join(",", statuses)]), None)
  }

  // ---------------------------------------------------------------------
  // Properties relating the specs

  /** The two-argument add spec is the three-argument one with "available". */
  lemma AddNewPetSpecDefaultsStatus(cfg: Properties, id: string, name: string)
    ensures AddNewPetSpec(cfg, id, name) == AddNewPetSpecWithStatus(cfg, id, name, "available")
  {
  }

  /** The three-argument update spec is the four-argument one with "available". */
  lemma UpdatePetSpecDefaultsStatus(cfg: Properties, id: string, updateName: string, tagName: string)
    ensures UpdatePetSpec(cfg, id, updateName, tagName) == UpdatePetSpecWithStatus(cfg, id, updateName, tagName, "available")
  {
  }

  /** A single status gives the same descriptor as the single-status spec. */
  lemma SingleStatusIsStatusSpec(cfg: Properties, status: string)
    ensures MultipleStatusesSpec(cfg, [status]) == StatusSpec(cfg, status)
  {
  }

  /** The `status` parameter of the multi-status spec splits back into the
      statuses, provided there is at least one and none contains a comma. */
  lemma MultipleStatusesRoundTrip(cfg: Properties, statuses: seq<string>)
    requires |statuses| >= 1
    requires forall i :: 0 <= i < |statuses| ==> ',' !in statuses[i]
    ensures Split(MultipleStatusesSpec(cfg, statuses).query["status"], ',') == statuses
  {
    SplitJoin(statuses, ',');
  }

  /** Without custom headers the custom-headers spec is the by-id spec. */
  lemma CustomHeadersWithoutHeaders(cfg: Properties, id: string)
    ensures CustomHeadersSpec(cfg, id, None) == PetIdSpec(cfg, id)
    ensures CustomHeadersSpec(cfg, id, Some(map[])) == PetIdSpec(cfg, id)
  {
  }

  /** Distinct ids give distinct by-id and delete descriptors, so no two pets
      share a request. */
  lemma IdSpecsAreInjective(cfg: Properties, a: string, b: string)
    ensures PetIdSpec(cfg, a) == PetIdSpec(cfg, b) ==> a == b
    ensures DeletePetSpec(cfg, a) == DeletePetSpec(cfg, b) ==> a == b
  {
    IdUriInjective(cfg, PET_BY_ID_ENDPOINT_KEY, a, b);
    IdUriInjective(cfg, DELETE_ENDPOINT_KEY, a, b);
  }

  /** The URI of an id endpoint determines the id. */
  lemma IdUriInjective(cfg: Properties, key: string, a: string, b: string)
    ensures FullUri(cfg, IdEndpoint(cfg, key, a)) == FullUri(cfg, IdEndpoint(cfg, key, b)) ==> a == b
  {
    var base := Show(Get(cfg, BASE_URI_KEY));
    var prefix := Show(Get(cfg, key));
    if FullUri(cfg, IdEndpoint(cfg, key, a)) == FullUri(cfg, IdEndpoint(cfg, key, b)) {
      AppendCancels(base, prefix + a, prefix + b);
      AppendCancels(prefix, a, b);
    }
  }

  lemma AppendCancels(p: string, a: string, b: string)
    requires p + a == p + b
    ensures a == b
  {
    assert a == (p + a)[|p|..];
    assert b == (p + b)[|p|..];
  }

  /** When the by-id and delete endpoints are configured alike, reading and
      deleting a pet address the same descriptor. */
  lemma ByIdAndDeleteShareDescriptor(cfg: Properties, id: string)
    requires Get(cfg, PET_BY_ID_ENDPOINT_KEY) == Get(cfg, DELETE_ENDPOINT_KEY)
    ensures PetIdSpec(cfg, id) == DeletePetSpec(cfg, id)
  {
  }
}
