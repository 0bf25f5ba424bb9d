/** The part of the bank module that the sequencer registry relies on:
    per-token balances of rollup addresses and a fallible transfer.
    The bank's own code is not part of this model; this module states the
    behaviour the registry assumes of it: a transfer either fails and
    changes nothing, or moves exactly the requested amount. */
module Bank {
  import opened Wrappers

  /** An address on the rollup (`C::Address`), kept as opaque bytes. */
  datatype Address = Address(bytes: seq<bv8>)

  /** Largest token amount: amounts and balances are `u64`. */
  const MaxAmount: nat := 0xFFFF_FFFF_FFFF_FFFF

  /** `sov_bank::Coins`: an amount of one token, named by its address. */
  datatype Coins = Coins(amount: nat, tokenAddress: Address)

  /** Balances of every token: token address -> owner -> amount.
      An owner missing from a token's map holds zero of it. */
  datatype BankState = BankState(tokens: map<Address, map<Address, nat>>)

  datatype TransferError =
    | TokenNotFound(token: Address)
    | InsufficientBalance(owner: Address, balance: nat, needed: nat)
    | BalanceOverflow(owner: Address)

  function BalanceIn(balances: map<Address, nat>, owner: Address): nat
  {
    if owner in balances then balances[owner] else 0
  }

  /** The amount of `token` that `owner` holds. */
  function Balance(b: BankState, token: Address, owner: Address): nat
  {
    if token in b.tokens then BalanceIn(b.tokens[token], owner) else 0
  }

  /** Every stored balance fits in a `u64`. */
  ghost predicate Valid(b: BankState)
  {
    forall t, o :: t in b.tokens && o in b.tokens[t] ==> b.tokens[t][o] <= MaxAmount
  }

  /** `b'` is `b` with exactly `coins` moved from `from` to `to`: the
      sender's balance of the token drops by the amount, the receiver's rises
      by it, and no other balance changes. */
  ghost predicate Moved(b: BankState, b': BankState, from: Address, to: Address, coins: Coins)
  {
    && b'.tokens.Keys == b.tokens.Keys
    && forall t, o :: Balance(b', t, o) ==
         Balance(b, t, o)
         - (if t == coins.tokenAddress && o == from then coins.amount else 0)
         + (if t == coins.tokenAddress && o == to then coins.amount else 0)
  }

  /** Moves `coins` from `from` to `to`. Fails, and moves nothing, when the
      token does not exist, when the sender holds less than the amount, or
      when the receiver's balance would exceed `u64`. */
  function TransferFrom(b: BankState, from: Address, to: Address, coins: Coins): (r: Result<BankState, TransferError>)
    ensures coins.tokenAddress !in b.tokens ==> r == Err(TokenNotFound(coins.tokenAddress))
    ensures coins.tokenAddress in b.tokens && Balance(b, coins.tokenAddress, from) < coins.amount ==>
              r == Err(InsufficientBalance(from, Balance(b, coins.tokenAddress, from), coins.amount))
    ensures r.Ok? <==>
              && coins.tokenAddress in b.tokens
              && coins.amount <= Balance(b, coins.tokenAddress, from)
              && (from == to || Balance(b, coins.tokenAddress, to) + coins.amount <= MaxAmount)
    ensures r.Ok? ==> Moved(b, r.value, from, to, coins)
  {
    var token := coins.tokenAddress;
    if token !in b.tokens then
      Err(TokenNotFound(token))
    else
      var balances := b.tokens[token];
      var fromBalance := BalanceIn(balances, from);
      if fromBalance < coins.amount then
        Err(InsufficientBalance(from, fromBalance, coins.amount))
      else if from == to then
        Ok(b)
      else
        var toBalance := BalanceIn(balances, to);
        if toBalance + coins.amount > MaxAmount then
          Err(BalanceOverflow(to))
        else
          var balances': map<Address, nat> := balances[from := fromBalance - coins.amount][to := toBalance + coins.amount];
          Ok(BankState(b.tokens[token := balances']))
  }

  /** A successful transfer keeps every balance within `u64`. */
  lemma TransferPreservesValid(b: BankState, from: Address, to: Address, coins: Coins)
    requires Valid(b)
    requires TransferFrom(b, from, to, coins).Ok?
    ensures Valid(TransferFrom(b, from, to, coins).value)
  {
  }

  // ---------------------------------------------------------------------
  // Total supply: the sum of all balances of a token.

  ghost function Pick(m: map<Address, nat>): (k: Address)
    requires |m| > 0
    ensures k in m
  {
    var k :| k in m; k
  }

  ghost function Sum(m: map<Address, nat>): nat
    decreases |m|
  {
    if |m| == 0 then 0
    else
      var k := Pick(m);
      assert (m - {k}).Keys == m.Keys - {k};
      m[k] + Sum(m - {k})
  }

  /** The sum does not depend on which key is taken out first. */
  lemma {:induction false} SumRemove(m: map<Address, nat>, k: Address)
    requires k in m
    ensures Sum(m) == m[k] + Sum(m - {k})
    decreases |m|
  {
    var j := Pick(m);
    assert (m - {j}).Keys == m.Keys - {j};
    if j != k {
      assert (m - {k}).Keys == m.Keys - {k};
      SumRemove(m - {j}, k);
      SumRemove(m - {k}, j);
      assert m - {j} - {k} == m - {k} - {j};
    }
  }

  /** Overwriting one balance changes the sum by the difference. */
  lemma SumUpdate(m: map<Address, nat>, k: Address, v: nat)
    ensures Sum(m[k := v]) == Sum(m) - BalanceIn(m, k) + v
  {
    SumRemove(m[k := v], k);
    if k in m {
      SumRemove(m, k);
      assert m[k := v] - {k} == m - {k};
    } else {
      assert m[k := v] - {k} == m;
    }
  }

  /** Total amount of `token` in existence. */
  ghost function Supply(b: BankState, token: Address): nat
  {
    if token in b.tokens then Sum(b.tokens[token]) else 0
  }

  /** A transfer neither creates nor destroys tokens. */
  lemma TransferConservesSupply(b: BankState, from: Address, to: Address, coins: Coins, token: Address)
    requires TransferFrom(b, from, to, coins).Ok?
    ensures Supply(TransferFrom(b, from, to, coins).value, token) == Supply(b, token)
  {
    var t := coins.tokenAddress;
    var r := TransferFrom(b, from, to, coins).value;
    if from == to {
      assert r == b;
    } else {
      var m := b.tokens[t];
      var f := BalanceIn(m, from);
      var g := BalanceIn(m, to);
      var m1: map<Address, nat> := m[from := f - coins.amount];
      var m2: map<Address, nat> := m1[to := g + coins.amount];
      assert r.tokens == b.tokens[t := m2];
      if token == t {
        SumUpdate(m, from, f - coins.amount);
        assert BalanceIn(m1, to) == g;
        SumUpdate(m1, to, g + coins.amount);
      }
    }
  }
}
