/**
 * The crop registry object: its three fields updated in place, each method
 * proved against the state machine in RegistrySpec.
 */
module CropRegistry {
  import opened RegistrySpec

  class Registry {
    var admin: Principal
    var batches: map<BatchId, Batch>
    var nextId: nat

    /** The registry's fields as one RegistrySpec state. */
    function Abstract(): State
      reads this
    {
      State(admin, batches, nextId)
    }

    /** The object invariant: ids handed out by the counter are never in use. */
    ghost predicate Valid()
      reads this
    {
      IdsFresh(Abstract())
    }

    constructor (admin: Principal)
      ensures Valid()
      ensures Abstract() == Init(admin)
    {
      this.admin := admin;
      batches := map[];
      nextId := 1;
    }

    /** isAdmin: exact equality with the admin principal. */
    method IsAdmin(caller: Principal) returns (b: bool)
      ensures b == RegistrySpec.IsAdmin(Abstract(), caller)
      ensures b <==> caller == admin
    {
      b := caller == admin;
    }

    /** registerCrop: open to any caller, and it cannot fail. */
    method RegisterCrop(caller: Principal, cropType: string, location: string,
                        harvestDate: int, certHash: string) returns (id: BatchId)
      requires Valid()
      modifies this
      ensures Valid()
      ensures (Abstract(), id) == Register(old(Abstract()), caller, cropType, location, harvestDate, certHash)
      ensures id == old(nextId) && nextId == old(nextId) + 1
      ensures id !in old(batches)
      ensures batches == old(batches)[id := Batch(caller, cropType, location, harvestDate, certHash, false)]
      ensures admin == old(admin)
    {
      id := nextId;
      nextId := nextId + 1;
      batches := batches[id := NewBatch(caller, cropType, location, harvestDate, certHash)];
    }

    /** verifyCrop: NotAuthorized, then NotFound, then AlreadyVerified, else set the flag. */
    method VerifyCrop(caller: Principal, id: BatchId) returns (r: Result<bool>)
      requires Valid()
      modifies this
      ensures Valid()
      ensures (Abstract(), r) == Verify(old(Abstract()), caller, id)
      ensures r.Ok? <==> caller == old(admin) && id in old(batches) && !old(batches)[id].isVerified
      ensures r.Ok? ==> r.value && batches == old(batches)[id := old(batches)[id].(isVerified := true)]
      ensures r.Err? ==> batches == old(batches)
      ensures admin == old(admin) && nextId == old(nextId)
    {
      var authorized := IsAdmin(caller);
      if !authorized {
        return Err(NotAuthorized);
      }
      if id !in batches {
        return Err(NotFound);
      }
      var batch := batches[id];
      if batch.isVerified {
        return Err(AlreadyVerified);
      }
      batch := batch.(isVerified := true);
      batches := batches[id := batch];
      r := Ok(true);
    }

    /** getCrop: the stored batch or NotFound; changes nothing. */
    method GetCrop(id: BatchId) returns (r: Result<Batch>)
      ensures r == Get(Abstract(), id)
      ensures r.Ok? <==> id in batches
      ensures r.Ok? ==> r.value == batches[id]
      ensures r.Err? ==> r.error == NotFound
    {
      if id in batches {
        r := Ok(batches[id]);
      } else {
        r := Err(NotFound);
      }
    }

    /** reset: empties the registry and restarts the counter at 1; the admin stays. */
    method Reset()
      modifies this
      ensures Valid()
      ensures Abstract() == RegistrySpec.Reset(old(Abstract()))
      ensures batches == map[] && nextId == 1 && admin == old(admin)
    {
      batches := map[];
      nextId := 1;
    }
  }
}
