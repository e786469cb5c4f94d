# Petstore API test harness — a Dafny model of its core

The harness drives the Swagger Petstore REST API from Cucumber scenarios. Its
core is a stack of small Java classes:

- `ConfigurationReader` supplies typed lookups over the loaded properties.
- `CommonRequestSpec` and `PetReqSpec` build an immutable request descriptor
  for every pet operation: URI, content types, query and path parameters,
  headers and body.
- `DataFactory_PetStore` renders the JSON bodies from fixed templates.
- `CommonRestCRUD` issues the HTTP verbs, with or without a status check.
- `PetServices` wraps the pet operations and turns some answers into booleans.
- `ApiGenericFunctions` holds the pass/fail assertions on a response.
- `Hooks` keeps a per-scenario registry of created pets and deletes them
  again at teardown.

The model replaces the network by a **transport**: a total function from a
call (verb, request descriptor, path) to either a delivered response or a
raised exception. A response carries its status, time, content type, body,
headers and an abstract JSON-path view. Each path lookup yields a string, a
value of another JSON type, null, or an exception. Every operation is then a
pure function of the configuration map and the transport.

The model distinguishes Java's two kinds of throwable. RestAssured's
`statusCode(...)` check and JUnit's `Assert` raise `AssertionError`, which a
`catch (Exception e)` does not catch. Everything else here (transport
failures, JSON extraction errors, `IllegalArgumentException`,
`NumberFormatException`) is an `Exception`. `Failure.IsException` in
`base.dfy` records the difference. Several contracts depend on it: which
`catch` blocks take which failures, whether teardown can raise, and the
finding below.

Files and modules:

| file | module | models |
|---|---|---|
| base.dfy | Base | `Option`, `Result`, the failure kinds, pass/fail outcomes |
| text.dfy | Text | Java string behaviour the code relies on: null rendering by `+`, ASCII case folding, `contains`, `String.join`, decimal rendering |
| configuration_reader.dfy | ConfigurationReader | `common/ConfigurationReader.java` |
| common_request_spec.dfy | CommonRequestSpec | `specs/CommonRequestSpec.java` |
| pet_req_spec.dfy | PetReqSpec | `specs/PetReqSpec.java` |
| data_factory.dfy | DataFactory | `dataFactory/DataFactory_PetStore.java` |
| common_rest_crud.dfy | CommonRestCRUD | `common/CommonRestCRUD.java`, and the response readers |
| api_generic_functions.dfy | ApiGenericFunctions | `common/ApiGenericFunctions.java` |
| pet_services.dfy | PetServices | `services/PetServices.java` |
| hooks.dfy | Hooks | `hooks/Hooks.java`, and the create-and-register step |

The model follows the code in places where its behaviour may surprise a
reader:

- The status, by-id and delete descriptors pass a null body to the full
  builder, which turns it into `""`. These requests carry an empty body, not
  no body (`PetReqSpec.StatusSpec`, `PetReqSpec.PetIdSpec`,
  `PetReqSpec.DeletePetSpec`).
- Nothing checks that path placeholders are filled, so the model has no
  missing-path-parameter error.
- `petExists` tests for status 200, but teardown decides on status 404 and
  never calls `petExists`. A probe answering 500 therefore makes `petExists`
  false while teardown still deletes the pet
  (`Hooks.TeardownSkipsExactlyDeletedPets`).
- `verifyPetCreation` returns false from its `catch` block when the pet
  cannot be read, but a status other than 200 escapes that block (see
  Findings).

## Model

| member | source | states |
|---|---|---|
| ConfigurationReader.ParseInt | src/test/java/petStore/common/ConfigurationReader.java:99 | `Integer.parseInt` succeeds if and only if the text is an optional sign followed by at least one digit whose value lies in the 32-bit `int` range, and then gives that value; an out-of-range numeral is rejected, not wrapped |
| ConfigurationReader.ParseIntRejectsOverflow | src/test/java/petStore/common/ConfigurationReader.java:99 | for every magnitude, a digit string parses exactly when it is at most 2147483647 and a negated one exactly when it is at most 2147483648, to the value it denotes |
| ConfigurationReader.ParseIntRoundTrip | src/test/java/petStore/common/ConfigurationReader.java:99 | every `int`, rendered in decimal, parses back to itself |
| ConfigurationReader.ParseIntIgnoresPlusSign | src/test/java/petStore/common/ConfigurationReader.java:99 | a leading `+` before digits changes nothing |
| ConfigurationReader.Get | src/test/java/petStore/common/ConfigurationReader.java:58-66 | the value exactly when the key is present, null otherwise |
| ConfigurationReader.GetOr | src/test/java/petStore/common/ConfigurationReader.java:74-83 | the stored value for a present key, the default for a missing one |
| ConfigurationReader.GetOrDefaultOnlyWhenMissing | src/test/java/petStore/common/ConfigurationReader.java:74-83 | two different defaults give different answers if and only if the key is missing |
| ConfigurationReader.HasProperty | src/test/java/petStore/common/ConfigurationReader.java:155-157 | true if and only if the key was loaded, whatever its value, and then `get(key, default)` ignores the default |
| ConfigurationReader.HasPropertyIffGetNonNull | src/test/java/petStore/common/ConfigurationReader.java:155-157 | `hasProperty` holds if and only if `get` is non-null |
| ConfigurationReader.GetInt | src/test/java/petStore/common/ConfigurationReader.java:91-103 | IllegalArgumentException with the "not found" message for a missing key; NumberFormatException for a value that is not an `int`; otherwise the parsed value; both failures are Exceptions |
| ConfigurationReader.GetIntReadsBackStoredInt | src/test/java/petStore/common/ConfigurationReader.java:91-103 | storing an `int`'s rendering under a key and reading it with `getInt` gives the `int` back |
| ConfigurationReader.GetIntOr | src/test/java/petStore/common/ConfigurationReader.java:111-118 | the `getInt` value when it succeeds, the default on any failure |
| ConfigurationReader.GetIntDefaultOnFailure | src/test/java/petStore/common/ConfigurationReader.java:111-118 | the default shows through if and only if the key is missing or its value does not parse |
| ConfigurationReader.GetBoolean | src/test/java/petStore/common/ConfigurationReader.java:125-133 | fails exactly for a missing key; otherwise true if and only if the value equals "true" ignoring case |
| ConfigurationReader.GetBooleanOr | src/test/java/petStore/common/ConfigurationReader.java:141-148 | the default for a missing key; for a present key, whether the value is "true" ignoring case, never the default |
| ConfigurationReader.GetBooleanDefaultOnlyWhenMissing | src/test/java/petStore/common/ConfigurationReader.java:141-148 | defaults true and false give different answers if and only if the key is missing |
| CommonRequestSpec.FullUri | src/test/java/petStore/specs/CommonRequestSpec.java:46 | the configured base URI followed directly by the endpoint; a missing base-URI key renders as "null" whatever else is configured, and so does a null endpoint |
| CommonRequestSpec.OrEmpty | src/test/java/petStore/specs/CommonRequestSpec.java:52-53 | a null map becomes the empty map, any other map is kept |
| CommonRequestSpec.Build | src/test/java/petStore/specs/CommonRequestSpec.java:40-56 | JSON content and accept types, query and path maps with null turned into empty, body with null turned into "", no headers, logging on |
| CommonRequestSpec.BuildWithHeaders | src/test/java/petStore/specs/CommonRequestSpec.java:67-90 | the four-argument descriptor, plus the custom headers, and nothing else changed |
| CommonRequestSpec.BuildWithoutHeaders | src/test/java/petStore/specs/CommonRequestSpec.java:84-87 | a null or empty header map gives exactly the four-argument descriptor |
| CommonRequestSpec.BuildNoLogging | src/test/java/petStore/specs/CommonRequestSpec.java:100-116 | the four-argument descriptor without the logging filters |
| CommonRequestSpec.BuildMinimal | src/test/java/petStore/specs/CommonRequestSpec.java:123-131 | JSON types and no body at all, not even an empty one |
| CommonRequestSpec.BuildWithAuth | src/test/java/petStore/specs/CommonRequestSpec.java:140-154 | an `Authorization` header "Bearer " + token, no query or path parameters, body with null turned into "" |
| CommonRequestSpec.BuildWithApiKey | src/test/java/petStore/specs/CommonRequestSpec.java:162-174 | the minimal descriptor plus the `api_key` header, and no body |
| CommonRequestSpec.BuildMultipart | src/test/java/petStore/specs/CommonRequestSpec.java:181-188 | multipart content type, no accept type, no body |
| CommonRequestSpec.BuildersShareUri | src/test/java/petStore/specs/CommonRequestSpec.java:46-182 | every builder targets the same URI for the same endpoint |
| PetReqSpec.IdEndpoint | src/test/java/petStore/specs/PetReqSpec.java:65 | the configured prefix with the id appended and no separator inserted; a missing prefix renders as "null" |
| PetReqSpec.StatusSpec | src/test/java/petStore/specs/PetReqSpec.java:23-30 | exactly one query parameter, `status`, with the given value; empty body; the status endpoint |
| PetReqSpec.AddNewPetSpec | src/test/java/petStore/specs/PetReqSpec.java:38-43 | the add-pet endpoint with the `addNewPetBody(id, name)` body, no query or path parameters |
| PetReqSpec.AddNewPetSpecWithStatus | src/test/java/petStore/specs/PetReqSpec.java:52-57 | the add-pet endpoint with the body for the given status |
| PetReqSpec.PetIdSpec | src/test/java/petStore/specs/PetReqSpec.java:64-68 | the by-id endpoint with the id appended; empty body; no parameters or headers |
| PetReqSpec.UpdatePetSpec | src/test/java/petStore/specs/PetReqSpec.java:77-82 | the update endpoint with the `updatePetBody(id, name, tag)` body |
| PetReqSpec.UpdatePetSpecWithStatus | src/test/java/petStore/specs/PetReqSpec.java:92-97 | the update endpoint with the body for the given status |
| PetReqSpec.DeletePetSpec | src/test/java/petStore/specs/PetReqSpec.java:104-108 | the delete endpoint with the id appended; empty body |
| PetReqSpec.AddMinimalPetSpec | src/test/java/petStore/specs/PetReqSpec.java:116-121 | the add-pet endpoint with the minimal body |
| PetReqSpec.AddInvalidPetSpec | src/test/java/petStore/specs/PetReqSpec.java:128-133 | the add-pet endpoint with the body lacking `photoUrls` |
| PetReqSpec.AddPetWithTagsSpec | src/test/java/petStore/specs/PetReqSpec.java:142-147 | the add-pet endpoint with the multi-tag body |
| PetReqSpec.CustomHeadersSpec | src/test/java/petStore/specs/PetReqSpec.java:156-161 | the by-id descriptor with the custom headers forwarded, and nothing else changed |
| PetReqSpec.MultipleStatusesSpec | src/test/java/petStore/specs/PetReqSpec.java:168-175 | the single query parameter `status` holds all statuses comma-joined in order; otherwise the descriptor is the single-status one: the status endpoint, an empty body, no path parameters or headers |
| PetReqSpec.AddNewPetSpecDefaultsStatus | src/test/java/petStore/specs/PetReqSpec.java:38-57 | the two-argument add spec equals the three-argument one with "available" |
| PetReqSpec.UpdatePetSpecDefaultsStatus | src/test/java/petStore/specs/PetReqSpec.java:77-97 | the three-argument update spec equals the four-argument one with "available" |
| PetReqSpec.SingleStatusIsStatusSpec | src/test/java/petStore/specs/PetReqSpec.java:168-175 | a one-element status list gives the single-status descriptor |
| PetReqSpec.MultipleStatusesRoundTrip | src/test/java/petStore/specs/PetReqSpec.java:172 | splitting the joined parameter on commas gives back the statuses, when none contains a comma |
| PetReqSpec.CustomHeadersWithoutHeaders | src/test/java/petStore/specs/PetReqSpec.java:156-161 | with null or empty headers the custom-headers spec is the by-id spec |
| PetReqSpec.IdUriInjective | src/test/java/petStore/specs/PetReqSpec.java:65 | the URI of an id endpoint determines the id |
| PetReqSpec.IdSpecsAreInjective | src/test/java/petStore/specs/PetReqSpec.java:64-108 | distinct ids give distinct by-id and distinct delete descriptors |
| PetReqSpec.ByIdAndDeleteShareDescriptor | src/test/java/petStore/specs/PetReqSpec.java:64-108 | when both endpoints are configured alike, reading and deleting a pet use the same descriptor |
| DataFactory.CompletePetBody | src/test/java/petStore/dataFactory/DataFactory_PetStore.java:61-80 | the body is one JSON object, opening with `{` and closing with `}`, and each of the five arguments adds exactly its own length to a 210-character template, so nothing is escaped or dropped |
| DataFactory.AddNewPetBodyWithStatus | src/test/java/petStore/dataFactory/DataFactory_PetStore.java:31-50 | the complete body with category "Dogs" and tag "friendly" |
| DataFactory.AddNewPetBody | src/test/java/petStore/dataFactory/DataFactory_PetStore.java:20-22 | the complete body with category "Dogs", status "available" and tag "friendly" |
| DataFactory.UpdatePetBodyWithStatus | src/test/java/petStore/dataFactory/DataFactory_PetStore.java:101-120 | the complete body with category "Dogs" and the given tag |
| DataFactory.UpdatePetBody | src/test/java/petStore/dataFactory/DataFactory_PetStore.java:89-91 | the complete body with category "Dogs", status "available" and the given tag |
| DataFactory.MinimalPetBody | src/test/java/petStore/dataFactory/DataFactory_PetStore.java:128-134 | opens with the id line; id and name add exactly their own length to a 53-character template |
| DataFactory.InvalidPetBodyMissingPhotoUrls | src/test/java/petStore/dataFactory/DataFactory_PetStore.java:141-146 | opens with the id line; the id adds exactly its own length to a 33-character template |
| DataFactory.InvalidPetBodyWrongType | src/test/java/petStore/dataFactory/DataFactory_PetStore.java:152-158 | the minimal body for "TestPet" whose id is the quoted text "not-a-number", a JSON string where a number belongs |
| DataFactory.PetBodyWithMultipleTags | src/test/java/petStore/dataFactory/DataFactory_PetStore.java:167-196 | one JSON object, opening with `{` and closing with `}`; id, name and tag list add exactly their own length to a 180-character template |
| DataFactory.PetBodyWithStatus | src/test/java/petStore/dataFactory/DataFactory_PetStore.java:206-208 | the complete body with category "Dogs", the given status and tag "friendly" |
| DataFactory.TagObjects | src/test/java/petStore/dataFactory/DataFactory_PetStore.java:170-175 | one tag object per name, in input order, numbered from 1 |
| DataFactory.BuildTagBlock | src/test/java/petStore/dataFactory/DataFactory_PetStore.java:168-179 | the `StringBuilder` loop produces the tag objects joined by ",\n", with no trailing separator |
| DataFactory.TagBlockSeparators | src/test/java/petStore/dataFactory/DataFactory_PetStore.java:170-179 | n tags give the n objects plus exactly n - 1 two-character separators |
| DataFactory.NoTagsGiveEmptyBlock | src/test/java/petStore/dataFactory/DataFactory_PetStore.java:170-179 | no tags give an empty tag list |
| DataFactory.SingleTagBodyIsComplete | src/test/java/petStore/dataFactory/DataFactory_PetStore.java:167-196 | with one tag, the multi-tag body is the complete body with category "Dogs" and status "available" |
| DataFactory.InvalidBodyLacksPhotoUrls | src/test/java/petStore/dataFactory/DataFactory_PetStore.java:141-146 | for a numeric id, the invalid body does not contain `photoUrls` anywhere |
| CommonRestCRUD.Perform | src/test/java/petStore/common/CommonRestCRUD.java:36-43 | an issued call yields the delivered response, or the transport's exception |
| CommonRestCRUD.Send | src/test/java/petStore/common/CommonRestCRUD.java:36-43 | the unvalidated verbs return the response whatever its status; only the transport can fail, and that failure is an Exception |
| CommonRestCRUD.SendExpecting | src/test/java/petStore/common/CommonRestCRUD.java:20-28 | a validated verb succeeds if and only if the response is delivered with the expected status; a different status becomes a status mismatch carrying both codes |
| CommonRestCRUD.PathParamCall | src/test/java/petStore/common/CommonRestCRUD.java:172-181 | a GET of "/{id}" with the value bound to `id`, other path parameters kept, and the descriptor otherwise unchanged |
| CommonRestCRUD.GetWithPathParam | src/test/java/petStore/common/CommonRestCRUD.java:172-181 | succeeds if and only if that call is delivered with the expected status |
| CommonRestCRUD.QueryParamCall | src/test/java/petStore/common/CommonRestCRUD.java:191-203 | a GET with exactly one query parameter added, name to value, and the descriptor otherwise unchanged |
| CommonRestCRUD.GetWithQueryParam | src/test/java/petStore/common/CommonRestCRUD.java:191-203 | succeeds if and only if that call is delivered with the expected status |
| CommonRestCRUD.ParseMethod | src/test/java/petStore/common/CommonRestCRUD.java:217-247 | a verb is selected exactly when the upper-cased name is GET, POST, PUT or DELETE, and it is the verb so named; PATCH is never selected |
| CommonRestCRUD.ParseMethodNamesEachVerb | src/test/java/petStore/common/CommonRestCRUD.java:217-247 | each of the four supported verbs is selected by its own name, upper or lower case |
| CommonRestCRUD.ParseMethodAcceptsSupportedVerbs | src/test/java/petStore/common/CommonRestCRUD.java:217-247 | GET, POST, PUT and DELETE are accepted in upper and lower case; PATCH is rejected in both |
| CommonRestCRUD.ParseMethodIgnoresCase | src/test/java/petStore/common/CommonRestCRUD.java:217 | method names equal ignoring case select the same verb |
| CommonRestCRUD.ExecuteRequest | src/test/java/petStore/common/CommonRestCRUD.java:213-251 | an unsupported method raises IllegalArgumentException with its name; a supported one issues that verb against the endpoint with no status check; every failure is an Exception |
| CommonRestCRUD.ExecuteRequestIgnoresCase | src/test/java/petStore/common/CommonRestCRUD.java:213-251 | a supported method gives the same result whatever its case |
| CommonRestCRUD.PathAsString | src/test/java/petStore/common/ApiGenericFunctions.java:46 | reading a path into a `String` fails, with an Exception, exactly for an extraction error or a value of another type |
| CommonRestCRUD.PathIsPresent | src/test/java/petStore/common/ApiGenericFunctions.java:64 | reading a path into an `Object` fails only on an extraction error, and is non-null for a value of any type |
| CommonRestCRUD.JsonPathString | src/test/java/petStore/services/PetServices.java:59 | `getString` renders a value of any type, is null only for null, and agrees with the `String` read wherever that succeeds |
| ApiGenericFunctions.VerifyStatusCode | src/test/java/petStore/common/ApiGenericFunctions.java:17-23 | passes if and only if expected equals actual; a failure is an AssertionError |
| ApiGenericFunctions.VerifyResponseBody | src/test/java/petStore/common/ApiGenericFunctions.java:30-36 | passes if and only if the bodies are equal, two nulls included |
| ApiGenericFunctions.VerifyResponsePathKeyValue | src/test/java/petStore/common/ApiGenericFunctions.java:44-55 | passes if and only if the path reads as a string (or null) equal to the expectation; an extraction exception becomes an assertion failure rather than propagating |
| ApiGenericFunctions.VerifyResponseContainsKey | src/test/java/petStore/common/ApiGenericFunctions.java:62-69 | passes if and only if the path holds a non-null value of any type |
| ApiGenericFunctions.VerifyResponseTime | src/test/java/petStore/common/ApiGenericFunctions.java:76-82 | passes if and only if the time is strictly below the limit |
| ApiGenericFunctions.VerifyResponseNotNull | src/test/java/petStore/common/ApiGenericFunctions.java:88-90 | passes if and only if there is a response |
| ApiGenericFunctions.VerifyResponseBodyNotEmpty | src/test/java/petStore/common/ApiGenericFunctions.java:96-99 | fails if and only if the body is null or empty |
| ApiGenericFunctions.VerifyContentType | src/test/java/petStore/common/ApiGenericFunctions.java:106-112 | passes if and only if the content type is present and contains the expected text at some position |
| ApiGenericFunctions.VerifyHeaderExists | src/test/java/petStore/common/ApiGenericFunctions.java:119-122 | passes if and only if the header is present |
| ApiGenericFunctions.WaitForSec | src/test/java/petStore/common/ApiGenericFunctions.java:129-137 | sleeps 1000 times the seconds; a negative duration raises IllegalArgumentException, which the helper does not catch |
| ApiGenericFunctions.ExtractValue | src/test/java/petStore/common/ApiGenericFunctions.java:158-165 | non-null if and only if the path holds a string, which it returns; every extraction failure gives null instead of raising |
| ApiGenericFunctions.PathKeyValueAgreesWithExtractValue | src/test/java/petStore/common/ApiGenericFunctions.java:44-165 | for a non-null expectation the path assertion passes if and only if `extractValue` returns it; a null expectation passes only on a genuine null |
| ApiGenericFunctions.ContainsKeyAndExtractValue | src/test/java/petStore/common/ApiGenericFunctions.java:62-165 | whenever `extractValue` finds a value the key check passes; the key check passes with `extractValue` null exactly for non-string values |
| ApiGenericFunctions.ExactContentTypePasses | src/test/java/petStore/common/ApiGenericFunctions.java:106-112 | a response's own content type passes the check |
| ApiGenericFunctions.ValidatedResponsePassesStatusCheck | src/test/java/petStore/common/ApiGenericFunctions.java:17-23 | a response returned by a validated verb passes the status check for the validated status |
| ApiGenericFunctions.StatusCheckMatchesValidation | src/test/java/petStore/common/ApiGenericFunctions.java:17-23 | on a delivered response the status check fails if and only if the validated verb would fail |
| PetServices.GetPetStatus | src/test/java/petStore/services/PetServices.java:22-30 | succeeds if and only if the GET answers 200 and the body root is a non-null, non-string JSON value (standing for the list the code reads); a null root is a null dereference |
| PetServices.AddNewPet | src/test/java/petStore/services/PetServices.java:38-46 | succeeds if and only if the POST of the add-pet body answers 200 |
| PetServices.GetPetById | src/test/java/petStore/services/PetServices.java:53-61 | succeeds if and only if the GET answers 200 and its `name` can be read; any other status is a status mismatch |
| PetServices.GetPetByIdWithoutValidation | src/test/java/petStore/services/PetServices.java:68-76 | the response whatever its status; only a transport Exception fails it |
| PetServices.GetPetByIdInvalid | src/test/java/petStore/services/PetServices.java:83-91 | succeeds if and only if the same GET answers 404 |
| PetServices.UpdatePet | src/test/java/petStore/services/PetServices.java:100-112 | succeeds if and only if the PUT answers 200; the two-second pause happens only then, and a failure carries the PUT's failure |
| PetServices.DeleteById | src/test/java/petStore/services/PetServices.java:119-131 | succeeds if and only if the DELETE answers 200; the two-second pause happens only then |
| PetServices.DeleteByIdWithoutValidation | src/test/java/petStore/services/PetServices.java:139-160 | the response for any status; a transport Exception is rethrown |
| PetServices.PetExists | src/test/java/petStore/services/PetServices.java:167-176 | true if and only if the unvalidated GET answers 200; no status fails it, only a transport Exception does |
| PetServices.VerifyPetCreationAsWritten | src/test/java/petStore/services/PetServices.java:184-204 | fails, instead of answering, exactly when the GET is delivered with a status other than 200 |
| PetServices.VerifyPetCreation | src/test/java/petStore/services/PetServices.java:184-204 | true if and only if the GET answers 200 and the name reads as exactly the expected one; every failure gives false |
| PetServices.VerifyPetCreationLeaksStatusMismatch | src/test/java/petStore/services/PetServices.java:187-203 | any delivered status other than 200 escapes as an AssertionError from the code as written, where the documented result is false |
| PetServices.VerifyPetCreationOnMissingPet | src/test/java/petStore/services/PetServices.java:187-203 | a server answering 404 makes the as-written verification raise a 200-versus-404 status mismatch |
| PetServices.VerifyPetCreationAgreesWhenItReturns | src/test/java/petStore/services/PetServices.java:184-204 | wherever the as-written verification returns, its answer equals the documented one |
| PetServices.VerifyPetDeletion | src/test/java/petStore/services/PetServices.java:211-229 | true if and only if the GET is delivered with 404; any exception gives false |
| PetServices.CreationExistenceDeletion | src/test/java/petStore/services/PetServices.java:167-229 | on one answer of the by-id GET: a verified creation implies existence; an existing pet is not reported deleted; `verifyPetDeletion` holds exactly when `getPetByIdInvalid` succeeds |
| PetServices.NeitherExistingNorDeleted | src/test/java/petStore/services/PetServices.java:173-216 | a status other than 200 and 404 makes a pet neither existing nor deleted |
| Hooks.ScenarioStart | src/test/java/petStore/hooks/Hooks.java:26-34 | every scenario starts with an empty registry |
| Hooks.Register | src/test/java/petStore/hooks/Hooks.java:86-91 | a null or already registered id changes nothing; a fresh id is appended with earlier ids kept in order; the registry stays duplicate-free |
| Hooks.RegisterIsIdempotent | src/test/java/petStore/hooks/Hooks.java:87 | registering the same id twice is registering it once |
| Hooks.RegisterAllKeepsRegistryWellFormed | src/test/java/petStore/hooks/Hooks.java:86-91 | any run of registrations keeps the registry duplicate-free and its earlier ids in front, and it holds exactly the earlier and the non-null registered ids |
| Hooks.ScenarioRegistryHoldsEachCreatedPetOnce | src/test/java/petStore/hooks/Hooks.java:33-91 | within a scenario the registry holds each registered id exactly once and nothing else |
| Hooks.CreatePet | src/test/java/petStore/stepDef/PetStoreStepDef.java:63-81 | the id is registered if and only if it was registered before or the validated POST succeeded |
| Hooks.CleanupOne | src/test/java/petStore/hooks/Hooks.java:105-133 | a failure swallowed during one id's turn is always an Exception, so the catch takes it and teardown never raises |
| Hooks.CleanupOneClassifies | src/test/java/petStore/hooks/Hooks.java:106-132 | a 404 probe skips the pet; a probe exception is swallowed; otherwise the delete's answer is classified as 200, 404 or another status, or its exception swallowed |
| Hooks.CleanupStep | src/test/java/petStore/hooks/Hooks.java:106-132 | the loop body reports that classification and issues the probe, then the delete exactly when the pet is still present |
| Hooks.Teardown | src/test/java/petStore/hooks/Hooks.java:97-137 | every id is processed in order whatever happened to the earlier ones; one report entry per id; the registry ends empty |
| Hooks.PlanRemovesExactlyPresent | src/test/java/petStore/hooks/Hooks.java:105-118 | a teardown deletes an id if and only if the id is registered and still present |
| Hooks.PlanCounts | src/test/java/petStore/hooks/Hooks.java:105-118 | over distinct ids each id is probed exactly once and deleted once when present, never otherwise |
| Hooks.RemoveIssuedIffStillPresent | src/test/java/petStore/hooks/Hooks.java:108-118 | teardown deletes a registered pet if and only if its probe answered a status other than 404, 500 included |
| Hooks.TeardownCallCounts | src/test/java/petStore/hooks/Hooks.java:105-118 | with a duplicate-free registry, one probe per registered id, one delete when still present, none after a 404 |
| Hooks.CallOfIsInjective | src/test/java/petStore/hooks/Hooks.java:108-118 | distinct teardown events are distinct calls on the wire |
| Hooks.TeardownSkipsExactlyDeletedPets | src/test/java/petStore/hooks/Hooks.java:111 | on one answer of the by-id GET: teardown skips the pet exactly when `verifyPetDeletion` would report it deleted, and deletes a pet that `petExists` denies when the answer is 500 |

## Left out

- Property-file loading (`loadProperties`, the classpath and file-system fallback, `closeInputStream`): I/O. The model starts from the loaded map.
- `getAllProperties` and `printAllProperties`: they only expose or print the map.
- The RestAssured transport, the logging filters and spec merging: a foreign library. The transport is a parameter, and the filters are represented only by the descriptor's `logged` flag.
- JSON-path semantics: a response carries an abstract map from path to lookup result.
- `Thread.sleep` in `waitForSec`: the pause appears only as the milliseconds recorded in `PetServices.Settled`. An interrupted sleep is not modelled.
- `logResponse`, the console output of every operation, and the hooks that only log (`afterFailedScenario`, `beforeSmokeTests`, `afterDeleteTests`).
- `generateRandomPetName`, `generateRandomPetId` and `printSampleBodies`: randomness, the clock and printing.
- The step definitions other than create-and-register, Allure attachments, and the Cucumber runner.
- Sharing of the static registry across threads or hook instances: one registry per scenario is modelled.
- Server state: the transport answers every repeat of a call identically, so answers that change between requests are not modelled. The lemmas relating `verifyPetCreation`, `petExists`, `verifyPetDeletion` and teardown compare their verdicts on one answer of the by-id GET.
- Null string arguments to the body templates, to `petStoreRequestSpecWithAuth`, and as the id of the by-id and delete endpoints, and null elements inside the `statuses` and `tagNames` arrays: Java's `+` and `String.join` render them as "null", but the model's strings are never null, so that rendering is not represented for them.
- A null `statuses` or `tagNames` array, for which `String.join(",", statuses)` and `tagNames.length` throw NullPointerException: the model's sequences are never null.
- A null method name to `executeRequest`, for which `toUpperCase()` throws NullPointerException: the model's method name is never null.
- A null expected content type, for which `contains(null)` throws NullPointerException: the model's expected value is never null.
- Hooks.CreatePet: the rethrow of an Exception wrapped in a RuntimeException with a "Failed to create pet" message, and the report attachment of the response body, are not modelled; `result` is the outcome of `addNewPet` itself.
- Configuration defaults layered inside `java.util.Properties`: `getProperty` and `containsKey` are both modelled as plain map lookup.
- ConfigurationReader.ParseInt: decimal digits are ASCII only, whereas `Integer.parseInt` also accepts other Unicode decimal digits.
- ConfigurationReader.GetBoolean: case is folded for ASCII letters only, whereas Java folds every Unicode letter.
- CommonRestCRUD.ParseMethod: upper-casing is ASCII only, whereas `toUpperCase` maps some non-ASCII letters (such as the dotless i) onto ASCII ones.
- CommonRestCRUD.GetWithQueryParam: a query parameter whose name the descriptor already holds replaces the old value in the model; RestAssured may send both values.
- CommonRestCRUD.PathParamCall: path parameter values are not URL-encoded in the model.
- ApiGenericFunctions.VerifyHeaderExists: header names are matched exactly; RestAssured matches them ignoring case.
- PetServices.GetPetStatus: a body root of any non-string JSON type (object, number, boolean) is not told apart from a list, so the ClassCastException that `getList("$")` throws for a root that is not a list is not modelled.
- The RestAssured text of a status-mismatch failure: the model keeps only the expected and actual codes.

## Findings

| source | as written | input that shows it | evidently intended | confidence | as-written member | corrected member |
|---|---|---|---|---|---|---|
| src/test/java/petStore/services/PetServices.java:187-203 | `verifyPetCreation` calls the validated `getPetById` inside `try { ... } catch (Exception e) { return false; }`; a status other than 200 raises RestAssured's `AssertionError`, which is not an `Exception`, so it escapes | a by-id GET answering 404 (a pet that was never created) | return false, as its `catch` block does for every other failure and as its boolean result ("true if pet exists with correct name") implies | medium, not executed | PetServices.VerifyPetCreationAsWritten (PetServices.VerifyPetCreationOnMissingPet) | PetServices.VerifyPetCreation |
