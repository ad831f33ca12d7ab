/**
 * The registry's example scenarios, written as clients of the Registry class:
 * each one resets the shared registry first and then proves the outcomes the
 * scenario expects from the methods' contracts alone.
 */
module Scenarios {
  import opened RegistrySpec
  import opened CropRegistry

  /** Registering a batch returns id 1 and stores exactly the claim, unverified. */
  method RegisterNewBatch(reg: Registry, farmer: Principal)
    modifies reg
  {
    reg.Reset();
    var id := reg.RegisterCrop(farmer, "Tomatoes", "USA", 1700000000, "QmHash123");
    assert id == 1;
    var got := reg.GetCrop(1);
    assert got == Ok(Batch(farmer, "Tomatoes", "USA", 1700000000, "QmHash123", false));
  }

  /** The admin verifies a registered batch; reading it back shows it verified. */
  method AdminVerifies(reg: Registry, farmer: Principal)
    modifies reg
  {
    reg.Reset();
    var id := reg.RegisterCrop(farmer, "Corn", "India", 1700000000, "HashABC");
    var r := reg.VerifyCrop(reg.admin, 1);
    assert r == Ok(true);
    var got := reg.GetCrop(1);
    assert got.Ok? && got.value.isVerified;
  }

  /** Anyone else is refused with code 100. */
  method OtherUserIsRefused(reg: Registry, farmer: Principal, otherUser: Principal)
    requires otherUser != reg.admin
    modifies reg
  {
    reg.Reset();
    var id := reg.RegisterCrop(farmer, "Rice", "Brazil", 1700000000, "HashXYZ");
    var r := reg.VerifyCrop(otherUser, 1);
    assert r == Err(NotAuthorized) && Code(r.error) == 100;
  }

  /** Verifying an id that was never registered gives code 101. */
  method MissingBatchIsNotFound(reg: Registry)
    modifies reg
  {
    reg.Reset();
    var r := reg.VerifyCrop(reg.admin, 999);
    assert r == Err(NotFound) && Code(r.error) == 101;
  }

  /** A second verification of the same batch gives code 102. */
  method SecondVerifyIsRefused(reg: Registry, farmer: Principal)
    modifies reg
  {
    reg.Reset();
    var id := reg.RegisterCrop(farmer, "Beans", "Mexico", 1700000000, "HashBean");
    var r1 := reg.VerifyCrop(reg.admin, 1);
    var r2 := reg.VerifyCrop(reg.admin, 1);
    assert r1 == Ok(true);
    assert r2 == Err(AlreadyVerified) && Code(r2.error) == 102;
  }

  /** An unauthorized caller learns nothing, even about an id that does not exist. */
  method RefusalHidesExistence(reg: Registry, farmer: Principal, otherUser: Principal)
    requires otherUser != reg.admin
    modifies reg
  {
    reg.Reset();
    var id := reg.RegisterCrop(farmer, "Tomatoes", "USA", 1700000000, "QmHash123");
    var r := reg.VerifyCrop(otherUser, 2);
    assert r == Err(NotAuthorized);
  }
}
