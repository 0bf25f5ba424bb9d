# Sequencer registry

A Dafny model of the `sov-sequencer-registry` module of the rollup. This
module decides which data-availability (DA) addresses may post batches
("allowed sequencers"). It also holds the bond each of them locked through
the bank module, and it records an optional *preferred sequencer* whose
batches are processed first in a block.

The model is functional. A `Registry` value holds the following:
- the module's own rollup address;
- the bank balances;
- the map from DA address to rollup address;
- the optional preferred sequencer;
- the optional bond (`coins_to_lock`).

Every operation is a pure function. A transition returns either
`Ok(new state)` or `Err(error)`. A failed call carries no state, so the
registry stays as it was.

Files:
- `wrappers.dfy`: the `Option` and `Result` types.
- `bank.dfy`: the bank as far as the registry uses it. It holds per-token
  balances (capped at `u64`) and `TransferFrom`, which either fails or
  moves exactly the requested coins. It also defines the token supply,
  which a transfer conserves. The bank's source is not part of this model,
  so this module is an assumed interface, not a model of the bank's code.
- `sequencer_registry.dfy`: the registry state and its state invariant
  "the preferred sequencer, when set, is registered". It also holds
  `register_sequencer`, the three queries, `get_coins_to_lock`, the
  call-message dispatcher and the properties of registration.
- `registry_run.dfy`: a sequence of `Register` calls applied one after
  another. It proves that the invariant is preserved, that entries are only
  ever added, that one bond is locked per new sequencer, and that token
  supply is conserved.

Two facts about the code shape the model:
- The `expect` in `get_preferred_sequencer_rollup_address` (lib.rs:153)
  makes "the preferred sequencer, when set, is registered" a state
  invariant. The model returns `Err(Panic(..))` exactly when
  `PreferredIsRegistered` fails, and proves that registration preserves it.
- The duplicate-registration error carries `rollup_address` (lib.rs:121),
  not the DA address.

## Model

| member | source | states |
|---|---|---|
| SequencerRegistry.RegisterSequencer | crates/sovereign-sdk/module-system/module-implementations/sov-sequencer-registry/src/lib.rs:110-132 | Checks run in the source's order. An already registered DA address fails with `AlreadyRegistered(rollup)`. Then an unset bond fails with `CoinsToLockNotSet`. Then a failed bank transfer fails with `TransferFailed`. It succeeds iff none of these holds. On success exactly the bond moves from `rollup` to the module, `da` maps to `rollup`, and no other entry or field changes. |
| SequencerRegistry.RegisterTwiceFails | crates/sovereign-sdk/module-system/module-implementations/sov-sequencer-registry/src/lib.rs:116-122 | After a successful registration of `da`, a second registration of `da` by anyone fails with `AlreadyRegistered`. |
| SequencerRegistry.RegisterAllowsExactly | crates/sovereign-sdk/module-system/module-implementations/sov-sequencer-registry/src/lib.rs:116-129 | After a successful registration, a DA address is allowed iff it was allowed before or is `da`; the number of allowed sequencers grows by exactly one. |
| SequencerRegistry.RegisterLocksBond | crates/sovereign-sdk/module-system/module-implementations/sov-sequencer-registry/src/lib.rs:123-126 | A successful registration requires a configured bond. The payer loses exactly the bond amount of the bond token and the module gains exactly that amount. The token's total supply is unchanged. |
| SequencerRegistry.RegisterPreservesInvariant | crates/sovereign-sdk/module-system/module-implementations/sov-sequencer-registry/src/lib.rs:146-155 | If the preferred sequencer was registered before a successful registration, it still is afterwards, so the query's `expect` cannot fire. |
| SequencerRegistry.RegisterKeepsPreferred | crates/sovereign-sdk/module-system/module-implementations/sov-sequencer-registry/src/lib.rs:138-155 | Under the invariant, registration changes neither the preferred sequencer nor the rollup address reported for it. |
| SequencerRegistry.IsSenderAllowed | crates/sovereign-sdk/module-system/module-implementations/sov-sequencer-registry/src/lib.rs:157-160 | A sender is allowed iff it has an entry among the allowed sequencers. This is the observation `RegisterAllowsExactly` and `RegisterTwiceFails` are stated in. |
| SequencerRegistry.GetPreferredSequencer | crates/sovereign-sdk/module-system/module-implementations/sov-sequencer-registry/src/lib.rs:134-140 | Returns `None` iff no preferred sequencer is set, and otherwise the stored DA address. |
| SequencerRegistry.GetPreferredSequencerRollupAddress | crates/sovereign-sdk/module-system/module-implementations/sov-sequencer-registry/src/lib.rs:142-155 | Panics iff the invariant "preferred is registered" is broken. Returns `Ok(None)` iff no preferred sequencer is set. Otherwise it returns the preferred sequencer's entry among the allowed sequencers. |
| SequencerRegistry.GetCoinsToLock | crates/sovereign-sdk/module-system/module-implementations/sov-sequencer-registry/src/lib.rs:105-108 | Returns the configured bond, and `None` iff it is unset. |
| SequencerRegistry.RegisterCall | crates/sovereign-sdk/module-system/module-implementations/sov-sequencer-registry/src/lib.rs:92-94 | A `Register` call registers the caller's rollup address. On success the caller owns `da` and paid the bond. A duplicate fails with the caller's address in the error. |
| SequencerRegistry.Call | crates/sovereign-sdk/module-system/module-implementations/sov-sequencer-registry/src/lib.rs:85-101 | A DA address that fails to decode gives `InvalidDaAddress` before any state is read. Otherwise `Register` goes to registration and `Exit` goes to the exit transition. |
| SequencerRegistry.CallRegisterIsRegistration | crates/sovereign-sdk/module-system/module-implementations/sov-sequencer-registry/src/lib.rs:91-95 | For every decoder, a `Register` message either fails decoding or equals `register_sequencer` with the caller as owner. |
| SequencerRegistry.CallRegisterPreservesInvariant | crates/sovereign-sdk/module-system/module-implementations/sov-sequencer-registry/src/lib.rs:91-95 | A successful `Register` call through the dispatcher keeps the preferred sequencer registered. |
| Bank.TransferFrom | crates/sovereign-sdk/module-system/module-implementations/sov-sequencer-registry/src/lib.rs:125-126 | Assumed bank interface. The transfer fails on an unknown token, an insufficient balance or a receiver overflow, and succeeds iff none of these holds. On success exactly the coins move from sender to receiver and nothing else changes. |
| Bank.TransferConservesSupply | crates/sovereign-sdk/module-system/module-implementations/sov-sequencer-registry/src/lib.rs:125-126 | A successful transfer leaves every token's total supply unchanged. |
| Bank.TransferPreservesValid | crates/sovereign-sdk/module-system/module-implementations/sov-sequencer-registry/src/lib.rs:125-126 | A successful transfer keeps every balance within `u64`. |
| RegistryRun.Step | crates/sovereign-sdk/module-system/module-implementations/sov-sequencer-registry/src/lib.rs:110-132 | A successful call's new state is adopted, and a failed call leaves the state unchanged. It never changes the module address, the preferred sequencer or the bond. |
| RegistryRun.RunPreservesInvariant | crates/sovereign-sdk/module-system/module-implementations/sov-sequencer-registry/src/lib.rs:146-155 | No sequence of registrations breaks "preferred is registered" or changes the preferred sequencer's reported rollup address. |
| RegistryRun.RunOnlyAdds | crates/sovereign-sdk/module-system/module-implementations/sov-sequencer-registry/src/lib.rs:128-129 | Over any sequence of registrations, existing entries keep their owner. Every new entry was named by some request whose caller is its owner. The preferred sequencer and the bond are unchanged. |
| RegistryRun.StepLocksBond | crates/sovereign-sdk/module-system/module-implementations/sov-sequencer-registry/src/lib.rs:123-129 | One call either adds one sequencer and locks one bond with the module, or adds none and locks nothing. |
| RegistryRun.RunLocksBonds | crates/sovereign-sdk/module-system/module-implementations/sov-sequencer-registry/src/lib.rs:46-55 | Over any sequence of registrations by callers other than the module itself, the module's bond-token balance grows by the bond times the number of newly registered sequencers. |
| RegistryRun.RunConservesSupply | crates/sovereign-sdk/module-system/module-implementations/sov-sequencer-registry/src/lib.rs:123-126 | Over any sequence of registrations, no token's total supply changes. |

## Left out

- The bodies of `register` and `exit` (`call.rs`), genesis (`genesis.rs`), the blob hooks and slashing (`hooks.rs`) and the RPC query (`query.rs`) are not part of this model. `Exit` is a function parameter of `Call`, and its bond return and authorization are not modelled. The `SequencerOutcome` enum (lib.rs:58-68) is only produced by the hooks, so it is left out too.
- SequencerRegistry.RegisterCall: `call.rs` is not part of this model. The wrapper is taken to register the caller's own rollup address (`context.sender()`), since that is the only rollup address the dispatcher passes on.
- Bank.TransferFrom: the bank's code is not part of this model. Its failure conditions (unknown token, insufficient balance, `u64` overflow of the receiver) and the "self-transfer changes nothing" rule are assumptions about the bank, not source behaviour. Bond amounts are unbounded `nat`, not `u64`; only stored balances are capped.
- `Da::Address::try_from` is a function parameter `tryFrom`. Its byte format is not modelled.
- The `BcsCodec` serialization, the `WorkingSet` storage and its revert on error, and the `ModuleInfo`/JSON-schema derives are framework plumbing. The revert on error is reflected only in the fact that a failed call yields no new state: `RegistryRun.Step` keeps the previous state.
- The "`Register` then `Exit` restores the balance" property depends on the body of `exit`, which is not part of this model.
- The end-to-end test harness (`bin/citrea/tests/bitcoin_e2e/*`) spawns processes and does I/O. `crates/sequencer/src/lib.rs` only declares submodules whose code (mempool, block producer, commitment controller) is not part of this model.
