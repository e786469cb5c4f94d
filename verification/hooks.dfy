/** The scenario lifecycle: the registry of pets to clean up, how a step
    registers a pet it created, and the teardown that removes them. */
module Hooks {
  import opened Base
  import opened ConfigurationReader
  import opened CommonRestCRUD
  import opened PetReqSpec
  import opened PetServices

  /** The pet ids registered for cleanup, in registration order. */
  type Registry = seq<string>

  predicate NoDuplicates(reg: Registry) {
    forall i, j :: 0 <= i < j < |reg| ==> reg[i] != reg[j]
  }

  /** `setUp`: the registry is cleared at the start of every scenario. */
  function ScenarioStart(reg: Registry): (r: Registry)
    ensures NoDuplicates(r) && forall x :: x !in r
  {
    []
  }

  /** `registerPetForCleanup(petId)`: a null id or one already registered
      changes nothing; a fresh id goes at the end. */
  function Register(reg: Registry, petId: Option<string>): (r: Registry)
    ensures petId.None? ==> r == reg
    ensures petId.Some? && petId.value in reg ==> r == reg
    ensures petId.Some? && petId.value !in reg ==> r == reg + [petId.value]
    ensures r[..|reg|] == reg
    ensures forall x :: x in r <==> x in reg || petId == Some(x)
    ensures NoDuplicates(reg) ==> NoDuplicates(r)
  {
    if petId.Some? && petId.value !in reg then reg + [petId.value] else reg
  }

  /** Registering the same id twice is registering it once. */
  lemma RegisterIsIdempotent(reg: Registry, petId: Option<string>)
    ensures Register(Register(reg, petId), petId) == Register(reg, petId)
  {
  }

  /** A run of registrations, in order. */
  function RegisterAll(reg: Registry, ids: seq<Option<string>>): Registry
    decreases |ids|
  {
    if |ids| == 0 then reg else Register(RegisterAll(reg, ids[..|ids| - 1]), ids[|ids| - 1])
  }

  /** After any run of registrations starting from a duplicate-free registry,
      the registry is still duplicate-free, keeps its earlier ids in front,
      and holds exactly the earlier ids and the non-null registered ones. */
  lemma {:induction false} RegisterAllKeepsRegistryWellFormed(reg: Registry, ids: seq<Option<string>>)
    requires NoDuplicates(reg)
    ensures NoDuplicates(RegisterAll(reg, ids))
    ensures |reg| <= |RegisterAll(reg, ids)| && RegisterAll(reg, ids)[..|reg|] == reg
    ensures forall x :: x in RegisterAll(reg, ids) <==> x in reg || Some(x) in ids
    decreases |ids|
  {
    if |ids| > 0 {
      var init := ids[..|ids| - 1];
      RegisterAllKeepsRegistryWellFormed(reg, init);
      var before := RegisterAll(reg, init);
      assert RegisterAll(reg, ids) == Register(before, ids[|ids| - 1]);
      assert RegisterAll(reg, ids)[..|reg|] == before[..|before|][..|reg|];
      forall x
        ensures x in RegisterAll(reg, ids) <==> x in reg || Some(x) in ids
      {
        assert Some(x) in ids <==> Some(x) in init || ids[|ids| - 1] == Some(x) by {
          assert ids == init + [ids[|ids| - 1]];
        }
      }
    }
  }

  /** A scenario's registry: cleared, then one registration per create. */
  lemma ScenarioRegistryHoldsEachCreatedPetOnce(prior: Registry, ids: seq<Option<string>>)
    ensures NoDuplicates(RegisterAll(ScenarioStart(prior), ids))
    ensures forall x :: x in RegisterAll(ScenarioStart(prior), ids) <==> Some(x) in ids
  {
    RegisterAllKeepsRegistryWellFormed([], ids);
  }

  /** The create-pet step: the validated POST, then registration of the id;
      a failed POST throws before the id is registered. `result` is the
      outcome of `addNewPet` itself: the step goes on to rethrow an
      Exception wrapped in a RuntimeException with a "Failed to create pet"
      message, and to read the body for a report attachment after
      registering, neither of which this datatype records. */
  datatype Created = Created(result: Result<Response>, registry: Registry)

  function CreatePet(cfg: Properties, transport: Transport, reg: Registry, id: string, name: string): (c: Created)
    ensures c.result == AddNewPet(cfg, transport, id, name)
    ensures c.result.Ok? ==> c.registry == Register(reg, Some(id))
    ensures c.result.Err? ==> c.registry == reg
    ensures id in c.registry <==> id in reg || c.result.Ok?
  {
    match AddNewPet(cfg, transport, id, name)
    case Ok(response) => Created(Ok(response), Register(reg, Some(id)))
    case Err(f) => Created(Err(f), reg)
  }

  // ---------------------------------------------------------------------
  // Teardown

  /** What teardown did for one id. */
  datatype Cleanup =
    | AlreadyGone                     // the probe answered 404: no delete
    | Deleted                         // the delete answered 200
    | DeleteNotFound                  // the delete answered 404
    | UnexpectedStatus(status: int)   // the delete answered anything else
    | Swallowed(failure: Failure)     // an exception, caught and logged

  /** The delete teardown issues for an id. */
  function RemoveCall(cfg: Properties, id: string): Call {
    Call(DELETE, DeletePetSpec(cfg, id), "")
  }

  /** The probe leaves the pet to delete: it was delivered with a status
      other than 404, whatever that status is. */
  predicate StillPresent(cfg: Properties, transport: Transport, id: string) {
    transport(ByIdCall(cfg, id)).Delivered? && transport(ByIdCall(cfg, id)).response.status != 404
  }

  /** One turn of `cleanupTestPets`; only an exception is caught, and both
      calls can throw nothing else, so no turn ever raises. */
  function CleanupOne(cfg: Properties, transport: Transport, id: string): (c: Cleanup)
    ensures c.Swallowed? ==> c.failure.IsException()
  {
    match GetPetByIdWithoutValidation(cfg, transport, id)
    case Err(f) => Swallowed(f)
    case Ok(probe) =>
      if probe.status == 404 then AlreadyGone
      else
        match DeleteByIdWithoutValidation(cfg, transport, id)
        case Err(f) => Swallowed(f)
        case Ok(response) =>
          if response.status == 200 then Deleted
          else if response.status == 404 then DeleteNotFound
          else UnexpectedStatus(response.status)
  }

  /** What one turn reports, by what the probe and the delete answered: a
      404 probe skips the pet, a probe exception is swallowed, and otherwise
      the delete's answer is classified as 200, 404 or anything else. */
  lemma CleanupOneClassifies(cfg: Properties, transport: Transport, id: string)
    ensures CleanupOne(cfg, transport, id) == AlreadyGone
            <==> transport(ByIdCall(cfg, id)).Delivered? && transport(ByIdCall(cfg, id)).response.status == 404
    ensures !transport(ByIdCall(cfg, id)).Delivered?
            ==> CleanupOne(cfg, transport, id) == Swallowed(TransportFailure(transport(ByIdCall(cfg, id)).reason))
    ensures StillPresent(cfg, transport, id) && transport(RemoveCall(cfg, id)).Delivered? ==>
      var status := transport(RemoveCall(cfg, id)).response.status;
      CleanupOne(cfg, transport, id)
      == (if status == 200 then Deleted else if status == 404 then DeleteNotFound else UnexpectedStatus(status))
    ensures StillPresent(cfg, transport, id) && !transport(RemoveCall(cfg, id)).Delivered?
            ==> CleanupOne(cfg, transport, id) == Swallowed(TransportFailure(transport(RemoveCall(cfg, id)).reason))
  {
  }

  /** A call teardown issues, by the pet it concerns. */
  datatype Issued = Probed(id: string) | Removed(id: string)

  /** The transport call behind an issued event. */
  function CallOf(cfg: Properties, e: Issued): Call {
    match e
    case Probed(id) => ByIdCall(cfg, id)
    case Removed(id) => RemoveCall(cfg, id)
  }

  /** Distinct events are distinct calls on the wire, so counting events
      counts calls. */
  lemma CallOfIsInjective(cfg: Properties, e1: Issued, e2: Issued)
    ensures CallOf(cfg, e1) == CallOf(cfg, e2) ==> e1 == e2
  {
    IdSpecsAreInjective(cfg, e1.id, e2.id);
  }

  /** The events of one turn: always the probe, then the delete exactly
      when the pet is still present. */
  function StepEvents(id: string, present: bool): seq<Issued> {
    [Probed(id)] + (if present then [Removed(id)] else [])
  }

  /** The events of a teardown over `ids`, in registry order, given which
      pets the probes find still present. */
  function Plan(ids: seq<string>, present: string -> bool): seq<Issued>
    decreases |ids|
  {
    if |ids| == 0 then []
    else Plan(ids[..|ids| - 1], present) + StepEvents(ids[|ids| - 1], present(ids[|ids| - 1]))
  }

  /** Which pets the probes through `transport` find still present. */
  function Presence(cfg: Properties, transport: Transport): string -> bool {
    id => StillPresent(cfg, transport, id)
  }

  /** The events of a teardown through `transport`. */
  function TeardownCalls(cfg: Properties, transport: Transport, ids: seq<string>): seq<Issued> {
    Plan(ids, Presence(cfg, transport))
  }

  /** The body of the teardown loop for one id: probe without validation,
      skip on 404, otherwise delete without validation and classify the
      answer; an exception from either call is caught. */
  method CleanupStep(cfg: Properties, transport: Transport, petId: string)
    returns (entry: Cleanup, stepCalls: seq<Issued>)
    ensures entry == CleanupOne(cfg, transport, petId)
    ensures stepCalls == StepEvents(petId, StillPresent(cfg, transport, petId))
  {
    var probe := GetPetByIdWithoutValidation(cfg, transport, petId);
    stepCalls := [Probed(petId)];
    if probe.Err? {
      return Swallowed(probe.failure), stepCalls;
    }
    if probe.value.status == 404 {
      return AlreadyGone, stepCalls;
    }
    var deletion := DeleteByIdWithoutValidation(cfg, transport, petId);
    stepCalls := stepCalls + [Removed(petId)];
    if deletion.Err? {
      entry := Swallowed(deletion.failure);
    } else if deletion.value.status == 200 {
      entry := Deleted;
    } else if deletion.value.status == 404 {
      entry := DeleteNotFound;
    } else {
      entry := UnexpectedStatus(deletion.value.status);
    }
  }

  /** One more id processed adds its own events at the end. */
  lemma PlanExtend(ids: seq<string>, present: string -> bool, i: int)
    requires 0 <= i < |ids|
    ensures Plan(ids[..i + 1], present) == Plan(ids[..i], present) + StepEvents(ids[i], present(ids[i]))
  {
    assert ids[..i + 1][..i] == ids[..i];
  }

  /** Appending the next id's entry keeps the report entry-for-entry equal
      to the ids processed so far. */
  lemma ReportExtend(cfg: Properties, transport: Transport, ids: seq<string>, report: seq<Cleanup>, i: int, entry: Cleanup)
    requires 0 <= i < |ids| && |report| == i
    requires forall k :: 0 <= k < i ==> report[k] == CleanupOne(cfg, transport, ids[k])
    requires entry == CleanupOne(cfg, transport, ids[i])
    ensures forall k :: 0 <= k < i + 1 ==> (report + [entry])[k] == CleanupOne(cfg, transport, ids[k])
  {
  }

  /** `cleanupTestPets`: every registered id is processed in order, each
      failure is swallowed so the later ids are still processed, and the
      registry ends empty. Returns the emptied registry, one report entry per
      id, and the calls issued. */
  method Teardown(cfg: Properties, transport: Transport, registry: Registry)
    returns (remaining: Registry, report: seq<Cleanup>, calls: seq<Issued>)
    ensures remaining == []
    ensures |report| == |registry|
    ensures forall i :: 0 <= i < |registry| ==> report[i] == CleanupOne(cfg, transport, registry[i])
    ensures calls == TeardownCalls(cfg, transport, registry)
  {
    ghost var present := Presence(cfg, transport);
    report := [];
    calls := [];
    if |registry| == 0 {
      return [], report, calls;
    }
    var i := 0;
    while i < |registry|
      invariant 0 <= i <= |registry|
      invariant |report| == i
      invariant forall k :: 0 <= k < i ==> report[k] == CleanupOne(cfg, transport, registry[k])
      invariant calls == Plan(registry[..i], present)
    {
      var entry, stepCalls := CleanupStep(cfg, transport, registry[i]);
      PlanExtend(registry, present, i);
      calls := calls + stepCalls;
      ReportExtend(cfg, transport, registry, report, i, entry);
      report := report + [entry];
      i := i + 1;
    }
    assert registry[..i] == registry;
    remaining := [];
  }

  /** A plan deletes an id exactly when the id is in it and still present. */
  lemma {:induction false} PlanRemovesExactlyPresent(ids: seq<string>, present: string -> bool, id: string)
    ensures Removed(id) in Plan(ids, present) <==> id in ids && present(id)
    decreases |ids|
  {
    if |ids| > 0 {
      var init := ids[..|ids| - 1];
      PlanRemovesExactlyPresent(init, present, id);
      assert ids == init + [ids[|ids| - 1]];
    }
  }

  /** In a plan over distinct ids, each id is probed once and deleted once
      when present, never otherwise. */
  lemma {:induction false} PlanCounts(ids: seq<string>, present: string -> bool, id: string)
    requires NoDuplicates(ids)
    ensures multiset(Plan(ids, present))[Probed(id)] == (if id in ids then 1 else 0)
    ensures multiset(Plan(ids, present))[Removed(id)] == (if id in ids && present(id) then 1 else 0)
    decreases |ids|
  {
    if |ids| > 0 {
      var init := ids[..|ids| - 1];
      var last := ids[|ids| - 1];
      assert ids == init + [last];
      assert NoDuplicates(init);
      PlanCounts(init, present, id);
    }
  }

  /** Teardown deletes an id exactly when it was registered and its probe
      answered something other than 404 (500 included). */
  lemma RemoveIssuedIffStillPresent(cfg: Properties, transport: Transport, ids: seq<string>, id: string)
    ensures Removed(id) in TeardownCalls(cfg, transport, ids) <==> id in ids && StillPresent(cfg, transport, id)
  {
    PlanRemovesExactlyPresent(ids, Presence(cfg, transport), id);
  }

  /** With a duplicate-free registry teardown probes every registered id
      exactly once, deletes it once when still present, and never deletes it
      after a 404 probe. */
  lemma TeardownCallCounts(cfg: Properties, transport: Transport, ids: seq<string>, id: string)
    requires NoDuplicates(ids)
    ensures multiset(TeardownCalls(cfg, transport, ids))[Probed(id)] == (if id in ids then 1 else 0)
    ensures multiset(TeardownCalls(cfg, transport, ids))[Removed(id)]
            == (if id in ids && StillPresent(cfg, transport, id) then 1 else 0)
  {
    PlanCounts(ids, Presence(cfg, transport), id);
  }

  /** On one answer of the by-id GET, teardown skips the pet exactly when
      `verifyPetDeletion` would report it deleted, but deletes some pets
      that `petExists` denies: it tests for 404, not 200. */
  lemma TeardownSkipsExactlyDeletedPets(cfg: Properties, transport: Transport, id: string)
    ensures CleanupOne(cfg, transport, id) == AlreadyGone <==> VerifyPetDeletion(cfg, transport, id)
    ensures PetExists(cfg, transport, id) == Ok(true) ==> StillPresent(cfg, transport, id)
    ensures transport(ByIdCall(cfg, id)).Delivered? && transport(ByIdCall(cfg, id)).response.status == 500
            ==> PetExists(cfg, transport, id) == Ok(false) && StillPresent(cfg, transport, id)
  {
  }
}
