/** The sequencer-registry module: which DA-layer addresses may post
    batches, the bond each of them locked in the bank, and the optional
    preferred sequencer whose batches are processed first. */
module SequencerRegistry {
  import opened Wrappers
  import Bank

  /** An address on the data-availability layer (`Da::Address`). */
  datatype DaAddress = DaAddress(bytes: seq<bv8>)

  /** The module's state. `address` is the module's own rollup address,
      which receives the locked bonds; `bank` is the bank it transfers
      through. */
  datatype Registry = Registry(
    address: Bank.Address,
    bank: Bank.BankState,
    allowedSequencers: map<DaAddress, Bank.Address>,
    preferredSequencer: Option<DaAddress>,
    coinsToLock: Option<Bank.Coins>)

  /** Why a call message was rejected. */
  datatype Error =
    | AlreadyRegistered(sequencer: Bank.Address)
    | CoinsToLockNotSet
    | TransferFailed(cause: Bank.TransferError)
    | InvalidDaAddress(bytes: seq<bv8>)
    // Stands for the errors of the `Exit` transition, whose rules are not
    // part of this model; nothing in the model produces it.
    | ExitFailed(reason: string)

  /** The `expect` in the preferred-sequencer query aborts the program. */
  datatype Panic = Panic(message: string)

  /** Who sent the call message. */
  datatype Context = Context(sender: Bank.Address)

  /** The module's call messages; the DA address arrives as raw bytes. */
  datatype CallMessage =
    | Register(daAddress: seq<bv8>)
    | Exit(daAddress: seq<bv8>)

  /** The state invariant the preferred-sequencer query relies on: a
      preferred sequencer, when set, is one of the allowed sequencers. */
  predicate PreferredIsRegistered(s: Registry)
  {
    s.preferredSequencer.Some? ==> s.preferredSequencer.value in s.allowedSequencers
  }

  /** The configured bond, if any. */
  function GetCoinsToLock(s: Registry): (r: Option<Bank.Coins>)
    ensures r.Some? <==> s.coinsToLock.Some?
    ensures r.Some? ==> r.value == s.coinsToLock.value
  {
    s.coinsToLock
  }

  /** Whether `sender` may post batches. */
  function IsSenderAllowed(s: Registry, sender: DaAddress): (r: bool)
    ensures r <==> sender in s.allowedSequencers
  {
    sender in s.allowedSequencers
  }

  /** The preferred sequencer's DA address, if one is set. */
  function GetPreferredSequencer(s: Registry): (r: Option<DaAddress>)
    ensures r.None? <==> s.preferredSequencer.None?
    ensures r.Some? ==> r.value == s.preferredSequencer.value
  {
    s.preferredSequencer
  }

  /** The preferred sequencer's rollup address. Returns `None` when no
      preferred sequencer is set and panics when the preferred sequencer
      has no entry among the allowed sequencers. */
  function GetPreferredSequencerRollupAddress(s: Registry): (r: Result<Option<Bank.Address>, Panic>)
    ensures r.Err? <==> !PreferredIsRegistered(s)
    ensures r == Ok(None) <==> s.preferredSequencer.None?
    ensures r.Ok? && r.value.Some? ==>
              && s.preferredSequencer.Some?
              && IsSenderAllowed(s, s.preferredSequencer.value)
              && s.allowedSequencers[s.preferredSequencer.value] == r.value.value
  {
    match s.preferredSequencer
    case None => Ok(None)
    case Some(da) =>
      if da in s.allowedSequencers then Ok(Some(s.allowedSequencers[da]))
      else Err(Panic("Preferred Sequencer must have known address on rollup"))
  }

  /** Registers `da` as a sequencer owned by `rollup`, locking the
      configured bond. The checks run in order: a DA address that is
      already registered is refused, then a missing bond configuration,
      then a failed bank transfer; only after all three does the mapping
      get inserted. */
  function RegisterSequencer(s: Registry, da: DaAddress, rollup: Bank.Address): (r: Result<Registry, Error>)
    ensures IsSenderAllowed(s, da) ==> r == Err(AlreadyRegistered(rollup))
    ensures !IsSenderAllowed(s, da) && GetCoinsToLock(s).None? ==> r == Err(CoinsToLockNotSet)
    ensures !IsSenderAllowed(s, da) && GetCoinsToLock(s).Some? ==>
              var t := Bank.TransferFrom(s.bank, rollup, s.address, s.coinsToLock.value);
              t.Err? ==> r == Err(TransferFailed(t.error))
    ensures r.Ok? <==>
              && !IsSenderAllowed(s, da)
              && GetCoinsToLock(s).Some?
              && Bank.TransferFrom(s.bank, rollup, s.address, s.coinsToLock.value).Ok?
    // On success: exactly the bond moved from `rollup` to the module ...
    ensures r.Ok? ==> Bank.Moved(s.bank, r.value.bank, rollup, s.address, s.coinsToLock.value)
    // ... `da` now maps to `rollup` ...
    ensures r.Ok? ==> IsSenderAllowed(r.value, da) && r.value.allowedSequencers[da] == rollup
    // ... and no other entry, nor any other field, changed.
    ensures r.Ok? ==> forall d :: d != da ==>
              && (d in r.value.allowedSequencers <==> d in s.allowedSequencers)
              && (d in s.allowedSequencers ==> r.value.allowedSequencers[d] == s.allowedSequencers[d])
    ensures r.Ok? ==>
              && r.value.address == s.address
              && r.value.preferredSequencer == s.preferredSequencer
              && r.value.coinsToLock == s.coinsToLock
  {
    if da in s.allowedSequencers then
      Err(AlreadyRegistered(rollup))
    else if s.coinsToLock.None? then
      Err(CoinsToLockNotSet)
    else
      match Bank.TransferFrom(s.bank, rollup, s.address, s.coinsToLock.value)
      case Err(e) => Err(TransferFailed(e))
      case Ok(bank') =>
        Ok(s.(bank := bank', allowedSequencers := s.allowedSequencers[da := rollup]))
  }

  /** The `Register` call: the caller registers `da` with its own rollup
      address as owner and bond payer. */
  function RegisterCall(s: Registry, da: DaAddress, context: Context): (r: Result<Registry, Error>)
    ensures r.Ok? ==> IsSenderAllowed(r.value, da) && r.value.allowedSequencers[da] == context.sender
    ensures r.Ok? ==> s.coinsToLock.Some? && Bank.Moved(s.bank, r.value.bank, context.sender, s.address, s.coinsToLock.value)
    ensures IsSenderAllowed(s, da) ==> r == Err(AlreadyRegistered(context.sender))
  {
    RegisterSequencer(s, da, context.sender)
  }

  /** Dispatches a call message. The DA address bytes are decoded first by
      `tryFrom` (`Da::Address::try_from`); a failed decoding is an error
      before any state is read. `exit` is the `Exit` transition, whose
      definition is not part of this model. */
  function Call(s: Registry, message: CallMessage, context: Context,
                tryFrom: seq<bv8> -> Option<DaAddress>,
                exit: (Registry, DaAddress, Context) -> Result<Registry, Error>): (r: Result<Registry, Error>)
    ensures tryFrom(message.daAddress).None? ==> r == Err(InvalidDaAddress(message.daAddress))
    ensures tryFrom(message.daAddress).Some? && message.Register? ==>
              r == RegisterCall(s, tryFrom(message.daAddress).value, context)
    ensures tryFrom(message.daAddress).Some? && message.Exit? ==>
              r == exit(s, tryFrom(message.daAddress).value, context)
  {
    match tryFrom(message.daAddress)
    case None => Err(InvalidDaAddress(message.daAddress))
    case Some(da) =>
      match message
      case Register(_) => RegisterCall(s, da, context)
      case Exit(_) => exit(s, da, context)
  }

  // ---------------------------------------------------------------------
  // Properties of registration.

  /** Registration preserves the invariant that the preferred sequencer is
      registered, so the query's `expect` cannot fire after it. */
  lemma RegisterPreservesInvariant(s: Registry, da: DaAddress, rollup: Bank.Address)
    requires PreferredIsRegistered(s)
    requires RegisterSequencer(s, da, rollup).Ok?
    ensures PreferredIsRegistered(RegisterSequencer(s, da, rollup).value)
    ensures GetPreferredSequencerRollupAddress(RegisterSequencer(s, da, rollup).value).Ok?
  {
  }

  /** Registration neither changes the preferred sequencer nor the rollup
      address the query reports for it. */
  lemma RegisterKeepsPreferred(s: Registry, da: DaAddress, rollup: Bank.Address)
    requires PreferredIsRegistered(s)
    requires RegisterSequencer(s, da, rollup).Ok?
    ensures GetPreferredSequencer(RegisterSequencer(s, da, rollup).value) == GetPreferredSequencer(s)
    ensures GetPreferredSequencerRollupAddress(RegisterSequencer(s, da, rollup).value)
            == GetPreferredSequencerRollupAddress(s)
  {
  }

  /** After registration exactly one more DA address is allowed: `da`. */
  lemma RegisterAllowsExactly(s: Registry, da: DaAddress, rollup: Bank.Address, x: DaAddress)
    requires RegisterSequencer(s, da, rollup).Ok?
    ensures IsSenderAllowed(RegisterSequencer(s, da, rollup).value, x) <==> IsSenderAllowed(s, x) || x == da
    ensures |RegisterSequencer(s, da, rollup).value.allowedSequencers| == |s.allowedSequencers| + 1
  {
  }

  /** Registering the same DA address twice fails the second time, whoever
      the second owner is, with the first registration's state intact. */
  lemma RegisterTwiceFails(s: Registry, da: DaAddress, rollup: Bank.Address, other: Bank.Address)
    requires RegisterSequencer(s, da, rollup).Ok?
    ensures RegisterSequencer(RegisterSequencer(s, da, rollup).value, da, other) == Err(AlreadyRegistered(other))
  {
  }

  /** The sender's loss and the module's gain of the bond token both equal
      the configured bond, and the token's supply is unchanged. */
  lemma RegisterLocksBond(s: Registry, da: DaAddress, rollup: Bank.Address)
    requires RegisterSequencer(s, da, rollup).Ok?
    requires rollup != s.address
    ensures GetCoinsToLock(s).Some?
    ensures var c := s.coinsToLock.value; var s' := RegisterSequencer(s, da, rollup).value;
            && Bank.Balance(s'.bank, c.tokenAddress, rollup) + c.amount == Bank.Balance(s.bank, c.tokenAddress, rollup)
            && Bank.Balance(s'.bank, c.tokenAddress, s.address) == Bank.Balance(s.bank, c.tokenAddress, s.address) + c.amount
            && Bank.Supply(s'.bank, c.tokenAddress) == Bank.Supply(s.bank, c.tokenAddress)
  {
    var c := s.coinsToLock.value;
    Bank.TransferConservesSupply(s.bank, rollup, s.address, c, c.tokenAddress);
  }

  /** A `Register` call whose DA address decodes behaves as
      `RegisterSequencer` with the caller as owner; one that does not
      decode fails without reaching the registration checks. */
  lemma CallRegisterIsRegistration(s: Registry, bytes: seq<bv8>, context: Context,
                                   tryFrom: seq<bv8> -> Option<DaAddress>,
                                   exit: (Registry, DaAddress, Context) -> Result<Registry, Error>)
    ensures var r := Call(s, Register(bytes), context, tryFrom, exit);
            match tryFrom(bytes)
            case None => r == Err(InvalidDaAddress(bytes))
            case Some(da) => r == RegisterSequencer(s, da, context.sender)
  {
  }

  /** A successful `Register` call keeps the preferred-sequencer invariant. */
  lemma CallRegisterPreservesInvariant(s: Registry, bytes: seq<bv8>, context: Context,
                                       tryFrom: seq<bv8> -> Option<DaAddress>,
                                       exit: (Registry, DaAddress, Context) -> Result<Registry, Error>)
    requires PreferredIsRegistered(s)
    requires Call(s, Register(bytes), context, tryFrom, exit).Ok?
    ensures PreferredIsRegistered(Call(s, Register(bytes), context, tryFrom, exit).value)
  {
    RegisterPreservesInvariant(s, tryFrom(bytes).value, context.sender);
  }
}
