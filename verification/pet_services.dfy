/** The pet operations the steps and the cleanup hook call: each builds the
    operation's descriptor, issues one call through the transport and, for
    the validated ones, checks the status. */
module PetServices {
  import opened Base
  import opened ConfigurationReader
  import opened CommonRequestSpec
  import opened CommonRestCRUD
  import opened PetReqSpec
  import opened ApiGenericFunctions

  /** The pause after a successful update or delete, in seconds. */
  const SETTLE_SECONDS := 2

  /** A validated response together with the pause taken after it. */
  datatype Settled = Settled(response: Response, sleptMs: nat)

  /** The call every by-id read makes. */
  function ByIdCall(cfg: Properties, id: string): Call {
    Call(GET, PetIdSpec(cfg, id), "")
  }

  /** `getPetStatus(status)`: a GET that must answer 200, whose body root is
      then read as a list to count the pets; a null root dereferences null,
      and a string root or an extraction error throws. A root of any other
      non-string JSON type passes as if it were a list: the model does not
      tell lists from objects, numbers or booleans. */
  function GetPetStatus(cfg: Properties, transport: Transport, status: string): (r: Result<Response>)
    ensures r.Ok? <==> SendExpecting(transport, GET, StatusSpec(cfg, status), 200).Ok?
                       && PathValue(SendExpecting(transport, GET, StatusSpec(cfg, status), 200).value, "$").NonString?
    ensures r.Ok? ==> r == SendExpecting(transport, GET, StatusSpec(cfg, status), 200)
    ensures SendExpecting(transport, GET, StatusSpec(cfg, status), 200).Ok?
            && PathValue(SendExpecting(transport, GET, StatusSpec(cfg, status), 200).value, "$").Null?
            ==> r.Err? && r.failure.NullDereference?
  {
    var response :- SendExpecting(transport, GET, StatusSpec(cfg, status), 200);
    match PathValue(response, "$")
    case NonString(_) => Ok(response)
    case Null => Err(NullDereference("getList(\"$\") returned null"))
    case Found(_) => Err(ExtractionFailure("$", "value is not a List"))
    case Raises(reason) => Err(ExtractionFailure("$", reason))
  }

  /** `addNewPet(id, name)`: a POST of the add-pet body that must answer 200. */
  function AddNewPet(cfg: Properties, transport: Transport, id: string, name: string): (r: Result<Response>)
    ensures r.Ok? <==> transport(Call(POST, AddNewPetSpec(cfg, id, name), "")).Delivered?
                       && transport(Call(POST, AddNewPetSpec(cfg, id, name), "")).response.status == 200
    ensures r.Ok? ==> r.value == transport(Call(POST, AddNewPetSpec(cfg, id, name), "")).response
  {
    SendExpecting(transport, POST, AddNewPetSpec(cfg, id, name), 200)
  }

  /** `getPetById(id)`: a GET that must answer 200, whose `name` is then
      read for the log line; reading it throws on a body that is not JSON. */
  function GetPetById(cfg: Properties, transport: Transport, id: string): (r: Result<Response>)
    ensures r.Ok? <==> transport(ByIdCall(cfg, id)).Delivered?
                       && transport(ByIdCall(cfg, id)).response.status == 200
                       && !PathValue(transport(ByIdCall(cfg, id)).response, "name").Raises?
    ensures r.Ok? ==> r.value == transport(ByIdCall(cfg, id)).response
    ensures transport(ByIdCall(cfg, id)).Delivered? && transport(ByIdCall(cfg, id)).response.status != 200
            ==> r == Err(StatusMismatch(200, transport(ByIdCall(cfg, id)).response.status))
  {
    var response :- SendExpecting(transport, GET, PetIdSpec(cfg, id), 200);
    var _ :- JsonPathString(response, "name");
    Ok(response)
  }

  /** `getPetByIdWithoutValidation(id)`: the same GET, whatever its status. */
  function GetPetByIdWithoutValidation(cfg: Properties, transport: Transport, id: string): (r: Result<Response>)
    ensures r.Ok? <==> transport(ByIdCall(cfg, id)).Delivered?
    ensures r.Ok? ==> r.value == transport(ByIdCall(cfg, id)).response
    ensures r.Err? ==> r.failure.IsException()
  {
    Send(transport, GET, PetIdSpec(cfg, id))
  }

  /** `getPetByIdInvalid(id)`: the same GET, which must answer 404. */
  function GetPetByIdInvalid(cfg: Properties, transport: Transport, id: string): (r: Result<Response>)
    ensures r.Ok? <==> GetPetByIdWithoutValidation(cfg, transport, id).Ok?
                       && GetPetByIdWithoutValidation(cfg, transport, id).value.status == 404
    ensures r.Ok? ==> r == GetPetByIdWithoutValidation(cfg, transport, id)
  {
    SendExpecting(transport, GET, PetIdSpec(cfg, id), 404)
  }

  /** `updatePet(id, name, tag)`: a PUT that must answer 200, followed by
      the settle pause; a failed PUT throws before any pause. */
  function UpdatePet(cfg: Properties, transport: Transport, id: string, updateName: string, tagName: string): (r: Result<Settled>)
    ensures r.Ok? <==> SendExpecting(transport, PUT, UpdatePetSpec(cfg, id, updateName, tagName), 200).Ok?
    ensures r.Ok? ==> r.value.response == SendExpecting(transport, PUT, UpdatePetSpec(cfg, id, updateName, tagName), 200).value
                      && r.value.sleptMs == 1000 * SETTLE_SECONDS
    ensures r.Err? ==> r.failure == SendExpecting(transport, PUT, UpdatePetSpec(cfg, id, updateName, tagName), 200).failure
  {
    var response :- SendExpecting(transport, PUT, UpdatePetSpec(cfg, id, updateName, tagName), 200);
    match WaitForSec(SETTLE_SECONDS)
    case Ok(slept) => Ok(Settled(response, slept))
    case Err(f) => Err(f)
  }

  /** `deleteById(id)`: a DELETE that must answer 200, followed by the
      settle pause. */
  function DeleteById(cfg: Properties, transport: Transport, id: string): (r: Result<Settled>)
    ensures r.Ok? <==> SendExpecting(transport, DELETE, DeletePetSpec(cfg, id), 200).Ok?
    ensures r.Ok? ==> r.value.response == SendExpecting(transport, DELETE, DeletePetSpec(cfg, id), 200).value
                      && r.value.sleptMs == 1000 * SETTLE_SECONDS
    ensures r.Err? ==> r.failure == SendExpecting(transport, DELETE, DeletePetSpec(cfg, id), 200).failure
  {
    var response :- SendExpecting(transport, DELETE, DeletePetSpec(cfg, id), 200);
    match WaitForSec(SETTLE_SECONDS)
    case Ok(slept) => Ok(Settled(response, slept))
    case Err(f) => Err(f)
  }

  /** `deleteByIdWithoutValidation(id)`: the DELETE whatever its status; an
      exception is logged and rethrown unchanged. */
  function DeleteByIdWithoutValidation(cfg: Properties, transport: Transport, id: string): (r: Result<Response>)
    ensures r.Ok? <==> transport(Call(DELETE, DeletePetSpec(cfg, id), "")).Delivered?
    ensures r.Ok? ==> r.value == transport(Call(DELETE, DeletePetSpec(cfg, id), "")).response
    ensures r.Err? ==> r.failure.IsException()
  {
    match Send(transport, DELETE, DeletePetSpec(cfg, id))
    case Ok(response) => Ok(response)
    case Err(f) => Err(f)
  }

  /** `petExists(id)`: whether the unvalidated GET answers exactly 200;
      a transport exception propagates. */
  function PetExists(cfg: Properties, transport: Transport, id: string): (r: Result<bool>)
    ensures r.Ok? <==> transport(ByIdCall(cfg, id)).Delivered?
    ensures r.Ok? ==> (r.value <==> transport(ByIdCall(cfg, id)).response.status == 200)
  {
    var response :- GetPetByIdWithoutValidation(cfg, transport, id);
    Ok(response.status == 200)
  }

  /** `verifyPetCreation(id, name)` as written: its `catch (Exception)` does
      not take the AssertionError that the validated GET throws on a status
      other than 200, so that status escapes instead of yielding false. */
  function VerifyPetCreationAsWritten(cfg: Properties, transport: Transport, id: string, expectedName: string): (r: Result<bool>)
    ensures r.Err? <==> transport(ByIdCall(cfg, id)).Delivered?
                        && transport(ByIdCall(cfg, id)).response.status != 200
    ensures r.Ok? ==> (r.value <==> GetPetById(cfg, transport, id).Ok?
                                    && JsonPathString(GetPetById(cfg, transport, id).value, "name") == Ok(Some(expectedName)))
  {
    match GetPetById(cfg, transport, id)
    case Err(f) => if f.IsException() then Ok(false) else Err(f)
    case Ok(response) =>
      match JsonPathString(response, "name")
      case Err(_) => Ok(false)
      case Ok(actualName) => Ok(actualName == Some(expectedName))
  }

  /** `verifyPetCreation(id, name)` as documented: true exactly when the pet
      is served with status 200 and carries the expected name; every failure
      along the way, status mismatch included, yields false. */
  function VerifyPetCreation(cfg: Properties, transport: Transport, id: string, expectedName: string): (b: bool)
    ensures b <==> transport(ByIdCall(cfg, id)).Delivered?
                   && transport(ByIdCall(cfg, id)).response.status == 200
                   && JsonPathString(transport(ByIdCall(cfg, id)).response, "name") == Ok(Some(expectedName))
  {
    match GetPetById(cfg, transport, id)
    case Err(_) => false
    case Ok(response) => JsonPathString(response, "name") == Ok(Some(expectedName))
  }

  /** `verifyPetDeletion(id)`: whether the unvalidated GET answers 404; any
      exception yields false. */
  function VerifyPetDeletion(cfg: Properties, transport: Transport, id: string): (b: bool)
    ensures b <==> transport(ByIdCall(cfg, id)).Delivered? && transport(ByIdCall(cfg, id)).response.status == 404
  {
    match GetPetByIdWithoutValidation(cfg, transport, id)
    case Ok(response) => response.status == 404
    case Err(_) => false
  }

  // ---------------------------------------------------------------------
  // How the operations relate

  /** A status other than 200 on the by-id GET escapes the as-written
      verification as an AssertionError, where the documented contract
      answers false. */
  lemma VerifyPetCreationLeaksStatusMismatch(cfg: Properties, transport: Transport, id: string, expectedName: string)
    requires transport(ByIdCall(cfg, id)).Delivered?
    requires transport(ByIdCall(cfg, id)).response.status != 200
    ensures VerifyPetCreationAsWritten(cfg, transport, id, expectedName)
            == Err(StatusMismatch(200, transport(ByIdCall(cfg, id)).response.status))
    ensures !VerifyPetCreationAsWritten(cfg, transport, id, expectedName).failure.IsException()
    ensures !VerifyPetCreation(cfg, transport, id, expectedName)
  {
  }

  /** The concrete case: a server that answers 404 to every call. */
  function NotFoundEverywhere(): Transport {
    (c: Call) => Delivered(Response(404, 0, None, None, map[], map[]))
  }

  lemma VerifyPetCreationOnMissingPet(cfg: Properties, id: string)
    ensures VerifyPetCreationAsWritten(cfg, NotFoundEverywhere(), id, "doggie") == Err(StatusMismatch(200, 404))
    ensures !VerifyPetCreation(cfg, NotFoundEverywhere(), id, "doggie")
  {
    VerifyPetCreationLeaksStatusMismatch(cfg, NotFoundEverywhere(), id, "doggie");
  }

  /** Wherever the as-written verification returns, it agrees with the
      documented one. */
  lemma VerifyPetCreationAgreesWhenItReturns(cfg: Properties, transport: Transport, id: string, expectedName: string)
    requires VerifyPetCreationAsWritten(cfg, transport, id, expectedName).Ok?
    ensures VerifyPetCreationAsWritten(cfg, transport, id, expectedName).value == VerifyPetCreation(cfg, transport, id, expectedName)
  {
  }

  /** On one answer of the by-id GET, the classifiers agree: a verified
      creation means the pet exists, and a pet that exists is not reported
      deleted. The transport answers every repeat of a call alike, so this
      compares the classifiers on a single answer, not on answers the server
      gives at different times. */
  lemma CreationExistenceDeletion(cfg: Properties, transport: Transport, id: string, expectedName: string)
    ensures VerifyPetCreation(cfg, transport, id, expectedName) ==> PetExists(cfg, transport, id) == Ok(true)
    ensures PetExists(cfg, transport, id) == Ok(true) ==> !VerifyPetDeletion(cfg, transport, id)
    ensures VerifyPetDeletion(cfg, transport, id) <==> GetPetByIdInvalid(cfg, transport, id).Ok?
  {
  }

  /** A status that is neither 200 nor 404 makes a pet neither existing nor
      deleted. */
  lemma NeitherExistingNorDeleted(cfg: Properties, transport: Transport, id: string)
    requires transport(ByIdCall(cfg, id)).Delivered?
    requires transport(ByIdCall(cfg, id)).response.status !in {200, 404}
    ensures PetExists(cfg, transport, id) == Ok(false)
    ensures !VerifyPetDeletion(cfg, transport, id)
  {
  }
}
