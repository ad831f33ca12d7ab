# FarmChain crop registry, modelled in Dafny

FarmChain keeps a registry of crop batches. A producer registers a batch with its
crop type, origin, harvest date and certificate hash. Later a single trusted
authority (the admin) attests it as verified. The registry holds three fields:
the admin principal, a map from batch id to batch, and an id counter that
starts at 1. It has five operations:

- `isAdmin` compares a caller with the admin.
- `registerCrop` takes the next id from the counter and stores an unverified batch.
- `verifyCrop` is the guarded one-way transition from unverified to verified. It
  answers 100 (not authorized), then 101 (not found), then 102 (already
  verified), in that order.
- `getCrop` returns a stored batch or 101.
- `reset` empties the registry and restarts the counter.

The project has three modules:

- `RegistrySpec` (`registry_spec.dfy`) is the registry as a pure state machine.
  `State` holds the three fields. `Register` and `Verify` map a state to the
  next state and the reply, `Get` maps a state to a reply only, and `Reset`
  maps a state to the next state only. `Step`/`Run` replay a sequence of calls.
  Lemmas state what one call does and what holds over whole sequences: ids
  count up from the counter, ids are never reused between resets, verification
  is one-way, the admin never changes.
- `CropRegistry` (`crop_registry.dfy`) is the registry object: class `Registry`
  with fields `admin`, `batches` and `nextId` that its methods update in place.
  Each method's contract ties its new state and reply to the functions of
  `RegistrySpec`, and states the field updates directly. `Valid()` is the
  freshness invariant: `nextId` is at least 1 and every stored id lies in
  [1, nextId).
- `Scenarios` (`scenarios.dfy`) restates the five example scenarios of the test
  file (crop-registry.test.ts:63-108) as client methods of `Registry`. Each resets
  the registry and asserts the expected replies, codes 100/101/102 included. One
  more client method, `RefusalHidesExistence`, is not in the test file: it shows
  that an unauthorized caller verifying an id that was never registered (2) gets
  NotAuthorized, not NotFound.

Errors are a closed datatype `Error`. `Code` maps each error to its numeric
code, and `FromCode` reads a code back.

Two choices follow the TypeScript code:

- Batch ids are any integer, as callers pass them, not only positive ones.
  Stored ids are always at least 1 (`IdsFresh`).
- `reset` restarts the counter at 1, so ids are unique only between resets.
  `RegisteredIdsIncrease` and `RunWithoutResetEvolves` are stated for call
  sequences without a reset. `RunKeepsIdsFresh` and `RunKeepsAdmin` hold across resets.

## Model

| member | source | states |
|---|---|---|
| `CropRegistry.Registry.constructor` | farmchain/tests/crop-registry.test.ts:4-7 | a new registry has the given admin, no batches and counter 1, and satisfies the freshness invariant |
| `CropRegistry.Registry.IsAdmin` | farmchain/tests/crop-registry.test.ts:9-11 | the answer is true exactly when the caller equals the admin principal |
| `CropRegistry.Registry.RegisterCrop` | farmchain/tests/crop-registry.test.ts:13-30 | returns the old counter; the counter grows by exactly one; the id was not in use; the map gains exactly that id with farmer = caller, the supplied fields and isVerified = false; the admin is unchanged; the invariant is kept |
| `CropRegistry.Registry.VerifyCrop` | farmchain/tests/crop-registry.test.ts:32-41 | succeeds exactly when caller is admin and the batch is stored and unverified; success sets only that batch's flag; any error leaves the map unchanged; admin and counter never change; the reply matches the precedence 100, 101, 102 of `Verify` |
| `CropRegistry.Registry.GetCrop` | farmchain/tests/crop-registry.test.ts:43-46 | changes nothing; returns the stored batch exactly when the id is present, otherwise NotFound |
| `CropRegistry.Registry.Reset` | farmchain/tests/crop-registry.test.ts:48-51 | the map is empty, the counter is 1, the admin is unchanged, the invariant holds |
| `RegistrySpec.CodeRoundTrip` | farmchain/tests/crop-registry.test.ts:33-36 | each error has a code in 100..102 that reads back to the same error |
| `RegistrySpec.FromCodeIsInverse` | farmchain/tests/crop-registry.test.ts:33-36 | a code that reads as an error is that error's code |
| `RegistrySpec.InitIsFresh` | farmchain/tests/crop-registry.test.ts:4-7 | the initial registry satisfies the freshness invariant and every lookup in it is NotFound |
| `RegistrySpec.RegisterAllocatesFresh` | farmchain/tests/crop-registry.test.ts:20-28 | from a fresh state, registration returns the counter, advances it by one, never overwrites a stored batch, stores exactly the claim unverified, leaves every other lookup and the admin unchanged, and keeps freshness |
| `RegistrySpec.VerifyByOtherIsRefused` | farmchain/tests/crop-registry.test.ts:33 | a non-admin caller gets NotAuthorized with the state unchanged, whether or not the id exists or is verified |
| `RegistrySpec.VerifyMissingIsNotFound` | farmchain/tests/crop-registry.test.ts:34-35 | the admin verifying an id that is not stored gets NotFound with the state unchanged |
| `RegistrySpec.VerifyVerifiedIsRefused` | farmchain/tests/crop-registry.test.ts:36 | the admin verifying a verified batch gets AlreadyVerified with the state unchanged |
| `RegistrySpec.VerifyOutcome` | farmchain/tests/crop-registry.test.ts:32-41 | verification succeeds if and only if caller is admin, id stored and unverified; success returns true and changes only that batch's flag; an error changes nothing; freshness is kept |
| `RegistrySpec.VerifyTwice` | farmchain/tests/crop-registry.test.ts:36-40 | two successive admin verifications of an unverified stored batch give success, a verified batch on lookup, then AlreadyVerified |
| `RegistrySpec.ResetRestarts` | farmchain/tests/crop-registry.test.ts:48-51 | reset yields the initial registry for the same admin, which is fresh |
| `RegistrySpec.GetAnywhere` | farmchain/tests/crop-registry.test.ts:43-46 | a lookup inserted at any point of any call sequence leaves the final state and every other reply unchanged, and answers from the state reached at that point |
| `RegistrySpec.RunKeepsAdmin` | farmchain/tests/crop-registry.test.ts:5 | no sequence of calls, resets included, changes the admin |
| `RegistrySpec.RunKeepsIdsFresh` | farmchain/tests/crop-registry.test.ts:20-21 | every sequence of calls, resets included, keeps the counter at least 1 and every stored id in [1, counter) |
| `RegistrySpec.RegistrationsNumberConsecutively` | farmchain/tests/crop-registry.test.ts:20 | N registrations in a row return nextId, nextId+1, ..., nextId+N-1 in call order and leave the counter at nextId+N |
| `RegistrySpec.RegistrationsAfterResetNumberFromOne` | farmchain/tests/crop-registry.test.ts:48-51 | after a reset, N registrations return exactly the ids 1..N in call order |
| `RegistrySpec.RunRegisteredIdsInRange` | farmchain/tests/crop-registry.test.ts:20 | between resets, every id a run hands out lies between the starting and the final counter, and the counter never decreases |
| `RegistrySpec.RegisteredIdsIncrease` | farmchain/tests/crop-registry.test.ts:20 | between resets, the ids returned by registrations strictly increase in call order, so none is reused |
| `RegistrySpec.RunWithoutResetEvolves` | farmchain/tests/crop-registry.test.ts:38 | between resets no batch disappears, no claim field changes, a verified batch never becomes unverified, and the counter never decreases |

## Left out

- The test harness (`describe`, `it`, `expect`, `beforeEach`) is not modelled as code. Its scenarios appear as the client methods of `Scenarios`.
- Aliasing of batch objects is not modelled. `getCrop` returns the live stored object, and `verifyCrop` mutates it before storing it again. Here batches are values in a map that is updated as a whole, so a caller cannot change a stored batch through a returned one.
- JavaScript `number` semantics are not modelled: floating-point ids and dates, and precision loss for a very large counter. Ids and harvest dates are unbounded integers.
- The fixed principal strings of the source are not modelled. The admin is any string given at construction; the scenarios take farmer and other-user principals as parameters.
- `registerCrop` always succeeds, so `RegisterCrop` returns the id itself instead of a `{ value: id }` wrapper.
- `verifyCrop`'s truthiness test on the looked-up batch is modelled as a key-membership test; a stored record is always truthy.
- Persistence, transport and concurrency are not modelled. None appear in this code.
