# DID attribute registry — a Dafny model

This project models the attribute registry of the `did` pallet (`pallets/did/src/lib.rs`).
The pallet lets each account attach named key/value attributes to its decentralised identifier.
Each attribute has an expiry height.

The model has these parts:

- **Storage** (`DidPallet.State`, and the class `DidPallet.Pallet` that holds it in place):
  - `AttributeStore` maps (owner, 32-byte key) to an `Attribute` record.
  - `AttributeNonce` maps (owner, name) to a `u64`. A missing entry reads as 0.
  - The event log records what the extrinsics deposit.
- **Key derivation** (`DeriveKey`). The key is `blake2_256` of (owner, name, nonce). It is kept symbolic as the datatype `StorageKey`, so two keys are equal exactly when their inputs are equal. This is the collision resistance the pallet relies on.
- **Validity** (`Validity`). Without an expiry the validity is `u32::MAX`. With `Some(blocks)` it is the current block plus `blocks`.
- **The `Did` trait implementation.**
  - `Create` is an unconditional upsert.
  - `Mutate` looks the record up, then overwrites only `value` and `validity`.
  - `Lookup` is `get_attribute`: a contains-check, then a fetch.
  - `Delete` is a contains-check, then a remove.
  Each of these is a pure function on `State`. The class methods `CreateAttribute`, `MutateAttribute` and `DeleteAttribute` update the storage maps in place. Each method is proved equal to its function.
- **The extrinsics.**
  - `add_attribute`, `update_attribute` and `remove_attribute` first reject names longer than 64 bytes.
  - `read_attribute` has no length check.
  - On success each extrinsic deposits its event.
  - An error from the trait is mapped to a pallet error by `dispatch_error`.
- **Runs.** `DidProperties.Run` executes any sequence of signed extrinsics. The lemmas about it show four things:
  - the nonce map is never written, so every nonce stays 0 from genesis;
  - every stored record stays reachable under its own name;
  - other owners' attributes are never touched;
  - the event log only grows.

Host values come in as parameters: the current block number and the current moment are the `Env` argument, and the signed sender is an `AccountId` argument.

The code differs from a plain reading of the error list in two places. The model follows the code in both.
- Create never reports `AlreadyExist`. A second create for the same (owner, name) overwrites the first.
- Mutate keeps the `created` moment of the original record. It does not refresh it.

## Model

| member | source | states |
|---|---|---|
| `DidPallet.DispatchError` | pallets/did/src/lib.rs:62-72 | `dispatch_error` as written never yields `AttributeUpdateFailed` |
| `DidPallet.DispatchErrorCorrected` | pallets/did/src/lib.rs:62-72 | the corrected mapping yields `AttributeUpdateFailed` exactly for `FailedUpdate` and `AttributeCreationFailed` exactly for `FailedCreate` |
| `DidPallet.DeriveKey` | pallets/did/src/lib.rs:217 | the key stands for `blake2_256((owner, name, nonce))`; its owner, name and nonce can be read back from it, so it is injective (stated for all inputs by `DidProperties.DeriveKeyInjective`) |
| `DidPallet.Validity` | pallets/did/src/lib.rs:210-213 | the absolute expiry height: `now + blocks` for `Some(blocks)`, `u32::MAX` for `None`; create and mutate (lines 239-242) both use it, see `DidProperties.ValidityIsAbsolute` |
| `DidPallet.NonceOf` | pallets/did/src/lib.rs:89-92 | `nonce_of` with its `ValueQuery` default: an absent entry reads as 0, a present one reads as stored (its constancy over runs is `DidProperties.NoncesStayZero`) |
| `DidPallet.KeyOf` | pallets/did/src/lib.rs:216-217 | the nonce-then-hash pair every operation computes (also lines 249-250, 267-268, 279-280): the key is scoped to the owner and the name and carries the current nonce, and with no counter entry it is the key derived with nonce 0 |
| `DidPallet.Lookup` | pallets/did/src/lib.rs:262-274 | in a well-formed store the record found for (owner, name) carries that name and the current nonce |
| `DidPallet.Create` | pallets/did/src/lib.rs:202-229 | always `Ok`; afterwards get returns the record with the given name and value, the computed validity, `created = now` and the current nonce; only the entry at the current key changes; nonces and other names are untouched; well-formedness is kept |
| `DidPallet.Mutate` | pallets/did/src/lib.rs:232-259 | `NotFound` exactly when get finds nothing, and then the state is unchanged; on success the found record gets the new value and validity and keeps name, `created` and nonce at the same key; nothing else changes |
| `DidPallet.Delete` | pallets/did/src/lib.rs:277-287 | `NotFound` exactly when get finds nothing, and then the state is unchanged; afterwards get returns `None`; only that entry is removed |
| `DidPallet.Add` | pallets/did/src/lib.rs:105-127 | a name over 64 bytes is rejected with `AttributeNameExceedMax64` before storage is touched; otherwise it succeeds, stores what create stores and appends `AttributeAdded` |
| `DidPallet.Update` | pallets/did/src/lib.rs:132-153 | length guard first; `AttributeNotFound` with no change when the attribute is absent; otherwise mutate's store and an `AttributeUpdated` event |
| `DidPallet.Read` | pallets/did/src/lib.rs:157-171 | no length guard; `AttributeNotFound` exactly when get finds nothing; storage never changes; `AttributeRead` with the found record on success only |
| `DidPallet.Remove` | pallets/did/src/lib.rs:175-193 | length guard first; `AttributeNotFound` with no change when absent; otherwise exactly that entry is removed and `AttributeRemoved` with the current block is appended |
| `DidPallet.Pallet.constructor` | pallets/did/src/lib.rs:79-92 | both storage maps and the event log start empty, which is well formed |
| `DidPallet.Pallet.CreateAttribute` | pallets/did/src/lib.rs:202-229 | the in-place insert yields exactly the state and result of `Create` and keeps well-formedness |
| `DidPallet.Pallet.MutateAttribute` | pallets/did/src/lib.rs:232-259 | the in-place mutate yields exactly the state and result of `Mutate` and keeps well-formedness |
| `DidPallet.Pallet.DeleteAttribute` | pallets/did/src/lib.rs:277-287 | the in-place remove yields exactly the state and result of `Delete` and keeps well-formedness |
| `DidPallet.Pallet.AddAttribute` | pallets/did/src/lib.rs:105-127 | yields exactly the state and result of `Add` |
| `DidPallet.Pallet.UpdateAttribute` | pallets/did/src/lib.rs:132-153 | yields exactly the state and result of `Update` |
| `DidPallet.Pallet.ReadAttribute` | pallets/did/src/lib.rs:157-171 | yields exactly the state and result of `Read` |
| `DidPallet.Pallet.RemoveAttribute` | pallets/did/src/lib.rs:175-193 | yields exactly the state and result of `Remove` |
| `DidProperties.DeriveKeyInjective` | pallets/did/src/lib.rs:217 | key derivation is deterministic and separates owners, names and nonces |
| `DidProperties.ValidityIsAbsolute` | pallets/did/src/lib.rs:210-213 | validity is `now + b` (so `now` for `Some(0)`) or `u32::MAX` for `None` |
| `DidProperties.DispatchErrorConflatesFailures` | pallets/did/src/lib.rs:69-70 | as written, `FailedUpdate` and `FailedCreate` both become `AttributeCreationFailed` |
| `DidProperties.DispatchErrorCorrectedInjective` | pallets/did/src/lib.rs:62-72 | the corrected mapping is injective and agrees with the written one except on `FailedUpdate` |
| `DidProperties.AtMostOneRecordPerName` | pallets/did/src/lib.rs:216-226 | in a well-formed store one owner has at most one record per name, and get finds it |
| `DidProperties.RecreateOverwrites` | pallets/did/src/lib.rs:216-226 | two creates of one (owner, name) leave one record, holding the second call's value, validity and moment |
| `DidProperties.CreateThenMutate` | pallets/did/src/lib.rs:244-255 | after create then mutate, value and validity are new while name, `created` and nonce come from the create |
| `DidProperties.CreateThenDelete` | pallets/did/src/lib.rs:277-287 | after create then delete, get returns `None` and both a second delete and a mutate report `NotFound` |
| `DidProperties.AddStep` | pallets/did/src/lib.rs:105-127 | `add_attribute` keeps the nonces, well-formedness and other owners' lookups, and appends one event exactly when it succeeds |
| `DidProperties.UpdateStep` | pallets/did/src/lib.rs:132-153 | the same for `update_attribute` |
| `DidProperties.ReadStep` | pallets/did/src/lib.rs:157-171 | the same for `read_attribute` |
| `DidProperties.RemoveStep` | pallets/did/src/lib.rs:175-193 | the same for `remove_attribute` |
| `DidProperties.DispatchStep` | pallets/did/src/lib.rs:101-194 | one extrinsic of any kind leaves the nonces unchanged and keeps well-formedness; it appends one event exactly when it succeeds; it does not affect other owners |
| `DidProperties.RunKeepsNonces` | pallets/did/src/lib.rs:197-288 | no sequence of extrinsics writes `AttributeNonce` |
| `DidProperties.NoncesStayZero` | pallets/did/src/lib.rs:89-92 | from genesis every nonce reads 0, so every key is derived with nonce 0 |
| `DidProperties.RunPreservesWellFormed` | pallets/did/src/lib.rs:197-288 | every sequence of extrinsics keeps each record at the key derived from its own name and nonce |
| `DidProperties.ReachableRecordsAreFound` | pallets/did/src/lib.rs:262-274 | in a reachable state every stored record is what get returns for its name |
| `DidProperties.RunIsolatesOwners` | pallets/did/src/lib.rs:197-288 | extrinsics signed by other accounts never change an owner's lookups |
| `DidProperties.RunAppendsEvents` | pallets/did/src/lib.rs:101-194 | the event log only grows, by at most one event per extrinsic |

## Left out

- `ensure_signed` and origin handling are left out. The sender is an already-verified `AccountId` parameter, so the `BadOrigin` error is not modelled.
- The `Config` types `Public`, `Signature` and `Verify` are left out.
- `blake2_256` and the SCALE encoding are left out. The key is the symbolic `StorageKey`, which is injective by construction.
- The storage hashers, `#[pallet::weight]`, hooks and the other macro plumbing are left out. They have no behaviour here.
- `T::Time::now()` and `frame_system::block_number()` are not read. They are the `Env` parameter.
- The width of `BlockNumber` is not modelled. The pallet is generic over it, so heights are unbounded naturals. An overflow of `now + blocks`, which the code does not guard, therefore cannot happen in the model.
- The `ValueQuery` default of `attribute_of` is not modelled. It is only read after `contains_key` succeeds.
- Extrinsics are not rolled back on error. No operation writes before it fails, so a rollback would change nothing.
- The `did` and `structs` modules are not part of this model. `DidError` and `Attribute` are inferred from how the pallet uses them.

## Findings

| source | as written | input that shows it | evidently intended | confidence | as-written member | corrected member |
|---|---|---|---|---|---|---|
| pallets/did/src/lib.rs:70 | `DidError::FailedUpdate` is mapped to `AttributeCreationFailed`, so `AttributeUpdateFailed` is unreachable | `dispatch_error(DidError::FailedUpdate)` | `FailedUpdate` maps to `AttributeUpdateFailed` | medium (intent read from the variant names); not executed | `DidProperties.DispatchErrorConflatesFailures` | `DidPallet.DispatchErrorCorrected` |

The extrinsics in the model call `DispatchError`, the mapping as written, as the code does. The trait implementation only ever returns `NotFound`, and `DispatchErrorCorrectedInjective` shows that the two mappings agree on `NotFound`. So the extrinsics' results would be the same with the corrected mapping.
