/** Successive `Register` calls against one registry, as they are applied
    one after another within a block: each call either succeeds and its new
    state carries on, or fails and leaves the state as it was. */
module RegistryRun {
  import opened Wrappers
  import Bank
  import opened SequencerRegistry

  /** One registration request: the decoded DA address and its caller. */
  datatype Request = Request(daAddress: DaAddress, context: Context)

  /** The state after one call: a failed call changes nothing. */
  function Step(s: Registry, q: Request): (s': Registry)
    ensures s'.address == s.address && s'.preferredSequencer == s.preferredSequencer
    ensures s'.coinsToLock == s.coinsToLock
    ensures RegisterCall(s, q.daAddress, q.context).Err? ==> s' == s
    ensures RegisterCall(s, q.daAddress, q.context).Ok? ==>
              && s' == RegisterCall(s, q.daAddress, q.context).value
              && IsSenderAllowed(s', q.daAddress)
              && s'.allowedSequencers[q.daAddress] == q.context.sender
  {
    match RegisterCall(s, q.daAddress, q.context)
    case Ok(s1) => s1
    case Err(_) => s
  }

  /** The state after applying `qs` in order. */
  function Run(s: Registry, qs: seq<Request>): Registry
    decreases |qs|
  {
    if |qs| == 0 then s else Run(Step(s, qs[0]), qs[1..])
  }

  /** No sequence of registrations can break the preferred-sequencer
      invariant. */
  lemma {:induction false} RunPreservesInvariant(s: Registry, qs: seq<Request>)
    requires PreferredIsRegistered(s)
    ensures PreferredIsRegistered(Run(s, qs))
    ensures GetPreferredSequencerRollupAddress(Run(s, qs)) == GetPreferredSequencerRollupAddress(s)
    decreases |qs|
  {
    if |qs| > 0 {
      var q := qs[0];
      if RegisterCall(s, q.daAddress, q.context).Ok? {
        RegisterKeepsPreferred(s, q.daAddress, q.context.sender);
      }
      RunPreservesInvariant(Step(s, q), qs[1..]);
    }
  }

  /** Registrations only ever add entries: every sequencer allowed before
      stays allowed with the same owner, and every newly allowed one was
      named by some request whose caller owns it. */
  lemma {:induction false} RunOnlyAdds(s: Registry, qs: seq<Request>)
    ensures forall d :: d in s.allowedSequencers ==>
              d in Run(s, qs).allowedSequencers && Run(s, qs).allowedSequencers[d] == s.allowedSequencers[d]
    ensures forall d :: d in Run(s, qs).allowedSequencers ==>
              || d in s.allowedSequencers
              || exists i :: 0 <= i < |qs| && qs[i].daAddress == d
                              && Run(s, qs).allowedSequencers[d] == qs[i].context.sender
    ensures Run(s, qs).preferredSequencer == s.preferredSequencer
    ensures Run(s, qs).coinsToLock == s.coinsToLock
    decreases |qs|
  {
    if |qs| > 0 {
      var s1 := Step(s, qs[0]);
      RunOnlyAdds(s1, qs[1..]);
      forall d | d in Run(s, qs).allowedSequencers && d !in s.allowedSequencers
        ensures exists i :: 0 <= i < |qs| && qs[i].daAddress == d
                              && Run(s, qs).allowedSequencers[d] == qs[i].context.sender
      {
        if d in s1.allowedSequencers {
          assert qs[0].daAddress == d;
          assert s1.allowedSequencers[d] == qs[0].context.sender;
        } else {
          var i :| 0 <= i < |qs[1..]| && qs[1..][i].daAddress == d
                   && Run(s1, qs[1..]).allowedSequencers[d] == qs[1..][i].context.sender;
          assert qs[i + 1].daAddress == d;
        }
      }
    }
  }

  /** One call locks the bond exactly when it adds a sequencer. */
  lemma StepLocksBond(s: Registry, q: Request, c: Bank.Coins)
    requires s.coinsToLock == Some(c)
    requires q.context.sender != s.address
    ensures var s1 := Step(s, q);
            || (&& |s1.allowedSequencers| == |s.allowedSequencers| + 1
                && Bank.Balance(s1.bank, c.tokenAddress, s.address) == Bank.Balance(s.bank, c.tokenAddress, s.address) + c.amount)
            || (&& |s1.allowedSequencers| == |s.allowedSequencers|
                && Bank.Balance(s1.bank, c.tokenAddress, s.address) == Bank.Balance(s.bank, c.tokenAddress, s.address))
  {
    if RegisterCall(s, q.daAddress, q.context).Ok? {
      RegisterAllowsExactly(s, q.daAddress, q.context.sender, q.daAddress);
      RegisterLocksBond(s, q.daAddress, q.context.sender);
    }
  }

  /** Every successful registration locks one bond with the module: the
      module's balance of the bond token grows by the bond times the number
      of newly registered sequencers. */
  lemma {:induction false} RunLocksBonds(s: Registry, qs: seq<Request>, c: Bank.Coins)
    requires s.coinsToLock == Some(c)
    requires forall i :: 0 <= i < |qs| ==> qs[i].context.sender != s.address
    ensures |Run(s, qs).allowedSequencers| >= |s.allowedSequencers|
    ensures Bank.Balance(Run(s, qs).bank, c.tokenAddress, s.address)
            == Bank.Balance(s.bank, c.tokenAddress, s.address)
               + c.amount * (|Run(s, qs).allowedSequencers| - |s.allowedSequencers|)
    decreases |qs|
  {
    if |qs| > 0 {
      var s1 := Step(s, qs[0]);
      StepLocksBond(s, qs[0], c);
      var rest := qs[1..];
      assert forall i :: 0 <= i < |rest| ==> rest[i] == qs[i + 1];
      RunLocksBonds(s1, rest, c);
      var r := Run(s1, rest);
      var t, a := c.tokenAddress, s.address;
      AddBonds(c.amount,
               Bank.Balance(s.bank, t, a), Bank.Balance(s1.bank, t, a), Bank.Balance(r.bank, t, a),
               |s.allowedSequencers|, |s1.allowedSequencers|, |r.allowedSequencers|);
    }
  }

  /** Bonds locked by the first call and by the rest of the run add up
      (a helper for the bond count above). */
  lemma AddBonds(amount: nat, b: int, b1: int, bn: int, n: int, n1: int, m: int)
    requires (n1 == n + 1 && b1 == b + amount) || (n1 == n && b1 == b)
    requires m >= n1 && bn == b1 + amount * (m - n1)
    ensures m >= n && bn == b + amount * (m - n)
  {
    assert amount * (m - n) == amount * (n1 - n) + amount * (m - n1);
  }

  /** Registrations move tokens but never create or destroy them. */
  lemma {:induction false} RunConservesSupply(s: Registry, qs: seq<Request>, token: Bank.Address)
    ensures Bank.Supply(Run(s, qs).bank, token) == Bank.Supply(s.bank, token)
    decreases |qs|
  {
    if |qs| > 0 {
      var q := qs[0];
      if RegisterCall(s, q.daAddress, q.context).Ok? {
        Bank.TransferConservesSupply(s.bank, q.context.sender, s.address, s.coinsToLock.value, token);
      }
      RunConservesSupply(Step(s, q), qs[1..], token);
    }
  }
}
