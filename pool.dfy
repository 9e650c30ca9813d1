/**
 * The pool as the program runs it: balances updated in place, one token
 * program call at a time, by the three instruction handlers.
 *
 * Each handler returns at the first error, as the Rust `?` does, possibly
 * after some token calls have already moved balances. The Solana runtime
 * then discards every write of the failed instruction; `Deposit`, `Swap` and
 * `Withdraw` model that by restoring the balances the instruction started
 * from. The ghost `calls` log keeps every token call that was issued, so the
 * order of checks and effects stays visible after such a rollback.
 */
module AmmProgram {
  import opened AmmTypes
  import opened Ledger
  import opened Helper
  import DepositAsset
  import SwapTokens
  import WithdrawAsset

  /** The code the instructions call whose definition is not part of this model. */
  datatype Externals = Externals(
    swapToken: SwapTokens.SwapToken -> Result<U64>,
    swapSlippageCheck: (U64, U64) -> Outcome,
    withdrawToken: (PoolState, UserId, bool, U64) -> Result<U64>)

  /** How a finished instruction relates to its specification: committed on success, rolled back on failure. */
  ghost predicate Committed(r: Outcome, before: PoolState, after: PoolState, spec: Result<PoolState>)
  {
    match spec
    case Ok(s) => r == Done && after == s
    case Err(f) => r == Err(f) && after == before
  }

  datatype Instruction =
    | DepositIx(provider: UserId, amountA: U64, amountB: U64)
    | SwapIx(user: UserId, isA: bool, amount: U64, minSlippage: U64)
    | WithdrawIx(owner: UserId, lpAmount: U64)

  /** The balances after one instruction; a failed instruction leaves them as they were. */
  function Step(s: PoolState, ix: Instruction, ext: Externals): PoolState
  {
    var r := match ix
      case DepositIx(u, a, b) => DepositAsset.Deposit(s, u, a, b)
      case SwapIx(u, isA, amount, minSlippage) =>
        SwapTokens.Swap(s, u, isA, amount, minSlippage, ext.swapToken, ext.swapSlippageCheck)
      case WithdrawIx(u, lpAmount) => WithdrawAsset.Withdraw(s, u, lpAmount, ext.withdrawToken);
    if r.Ok? then r.value else s
  }

  /** The balances after a sequence of instructions. */
  function Run(s: PoolState, ixs: seq<Instruction>, ext: Externals): PoolState
    decreases |ixs|
  {
    if ixs == [] then s else Run(Step(s, ixs[0], ext), ixs[1..], ext)
  }

  /** No instruction turns an empty LP supply into a non-empty one. */
  lemma {:induction false} StepKeepsSupplyZero(s: PoolState, ix: Instruction, ext: Externals)
    requires s.lpSupply == 0
    ensures Step(s, ix, ext).lpSupply == 0
  {
    match ix
    case DepositIx(u, a, b) =>
      if DepositAsset.Deposit(s, u, a, b).Ok? {
        DepositAsset.DepositKeepsSupplyZero(s, u, a, b);
      }
    case SwapIx(u, isA, amount, minSlippage) =>
      if SwapTokens.Swap(s, u, isA, amount, minSlippage, ext.swapToken, ext.swapSlippageCheck).Ok? {
        SwapTokens.SwapEffect(s, u, isA, amount, minSlippage, ext.swapToken, ext.swapSlippageCheck);
      }
    case WithdrawIx(u, lpAmount) =>
      if WithdrawAsset.Withdraw(s, u, lpAmount, ext.withdrawToken).Ok? {
        WithdrawAsset.WithdrawEffect(s, u, lpAmount, ext.withdrawToken);
      }
  }

  /**
   * Once the LP supply is zero it stays zero, whatever instructions follow.
   * Since the bootstrap deposit mints nothing, a pool that starts empty
   * never has LP tokens.
   */
  lemma {:induction false} SupplyStaysZero(s: PoolState, ixs: seq<Instruction>, ext: Externals)
    requires s.lpSupply == 0
    ensures Run(s, ixs, ext).lpSupply == 0
    decreases |ixs|
  {
    if ixs != [] {
      StepKeepsSupplyZero(s, ixs[0], ext);
      SupplyStaysZero(Step(s, ixs[0], ext), ixs[1..], ext);
    }
  }

  class Pool {
    var vaultA: U64
    var vaultB: U64
    var lpSupply: U64
    var wallets: map<UserId, Wallet>
    const ext: Externals
    ghost var calls: seq<Cpi>

    function State(): PoolState
      reads this
    {
      PoolState(vaultA, vaultB, lpSupply, wallets)
    }

    /**
     * A pool as initialisation leaves it: both vaults empty and a fresh LP
     * mint, so no user holds LP tokens yet.
     */
    constructor (ext: Externals, wallets: map<UserId, Wallet>)
      requires forall u :: u in wallets ==> wallets[u].lp == 0
      ensures State() == PoolState(0, 0, 0, wallets) && this.ext == ext && calls == []
      ensures forall u :: WalletOf(State(), u).lp == 0
    {
      vaultA, vaultB, lpSupply := 0, 0, 0;
      this.wallets := wallets;
      this.ext := ext;
      calls := [];
    }

    method SetBalance(h: Holder, t: Token, v: U64)
      modifies this
      ensures State() == WithBalance(old(State()), h, t, v) && calls == old(calls)
    {
      match h
      case Vault =>
        if t == TokenA { vaultA := v; } else { vaultB := v; }
      case User(u) =>
        var w := WalletOf(State(), u);
        wallets := wallets[u := if t == TokenA then w.(a := v) else w.(b := v)];
    }

    /** One call into the token program, logged; its effect is committed only if it succeeds. */
    method Invoke(c: Cpi) returns (r: Outcome)
      modifies this
      ensures calls == old(calls) + [c]
      ensures Committed(r, old(State()), State(), Apply(old(State()), c))
    {
      calls := calls + [c];
      match c
      case TransferChecked(t, from, to, amount) => r := TokenTransfer(t, from, to, amount);
      case MintTo(u, amount) => r := TokenMint(u, amount);
      case Burn(u, amount) => r := TokenBurn(u, amount);
    }

    /** `transfer_checked`: fails if the source holds too little or the destination would overflow. */
    method TokenTransfer(t: Token, from: Holder, to: Holder, amount: U64) returns (r: Outcome)
      modifies this
      ensures calls == old(calls)
      ensures Committed(r, old(State()), State(), Apply(old(State()), TransferChecked(t, from, to, amount)))
    {
      var source := Balance(State(), from, t);
      var destination := Balance(State(), to, t);
      if source < amount {
        return Err(InsufficientFunds);
      }
      if from != to {
        if destination + amount > U64_MAX {
          return Err(TokenOverflow);
        }
        ghost var before := State();
        SetBalance(from, t, source - amount);
        SetBalance(to, t, destination + amount);
        assert State() == WithBalance(WithBalance(before, from, t, source - amount), to, t, destination + amount);
      }
      r := Done;
    }

    /** `mint_to`: credits the user's LP account and the supply, failing on overflow. */
    method TokenMint(u: UserId, amount: U64) returns (r: Outcome)
      modifies this
      ensures calls == old(calls)
      ensures Committed(r, old(State()), State(), Apply(old(State()), MintTo(u, amount)))
    {
      var w := WalletOf(State(), u);
      if w.lp + amount > U64_MAX || lpSupply + amount > U64_MAX {
        return Err(TokenOverflow);
      }
      wallets := wallets[u := w.(lp := w.lp + amount)];
      lpSupply := lpSupply + amount;
      r := Done;
    }

    /** `burn`: debits the user's LP account and the supply, failing if the user holds too little. */
    method TokenBurn(u: UserId, amount: U64) returns (r: Outcome)
      modifies this
      ensures calls == old(calls)
      ensures Committed(r, old(State()), State(), Apply(old(State()), Burn(u, amount)))
    {
      var w := WalletOf(State(), u);
      if w.lp < amount {
        return Err(InsufficientFunds);
      }
      if lpSupply < amount {
        return Err(TokenOverflow);
      }
      wallets := wallets[u := w.(lp := w.lp - amount)];
      lpSupply := lpSupply - amount;
      r := Done;
    }

    /** The runtime discarding the writes of a failed instruction. */
    method Rollback(snapshot: PoolState)
      modifies this
      ensures State() == snapshot && calls == old(calls)
    {
      vaultA, vaultB, lpSupply, wallets := snapshot.vaultA, snapshot.vaultB, snapshot.lpSupply, snapshot.wallets;
    }

    /**
     * The deposit handler, bootstrap path inline. On success the balances
     * are those of the deposit specification and the calls made are the two
     * transfers and, off the bootstrap path, the mint; a deposit the ratio
     * check rejects makes no call at all.
     */
    method DepositHandler(user: UserId, amountA: U64, amountB: U64) returns (r: Outcome)
      modifies this
      ensures var spec := DepositAsset.Deposit(old(State()), user, amountA, amountB);
        && (spec.Ok? ==> r == Done && State() == spec.value)
        && (spec.Err? ==> r == Err(spec.failure))
      ensures r.Ok? ==> calls == old(calls) + DepositAsset.DepositCalls(old(State()), user, amountA, amountB)
      ensures !DepositAsset.IsBootstrap(old(State())) && CheckAsset(old(vaultA), old(vaultB), amountA, amountB).Err?
        ==> calls == old(calls)
      ensures old(calls) <= calls <= old(calls) + DepositAsset.DepositCalls(old(State()), user, amountA, amountB)
    {
      if lpSupply == 0 && vaultA == 0 && vaultB == 0 {
        var paidA :- Invoke(DepositAsset.PayInA(user, amountA));
        r := Invoke(DepositAsset.PayInB(user, amountB));
      } else {
        r := LaterDepositHandler(user, amountA, amountB);
      }
    }

    /**
     * The ratio-checked path of the deposit handler: the check, the two
     * transfers, the LP share from the accounts as read at the start, and
     * the mint, stopping at the first error.
     */
    method LaterDepositHandler(user: UserId, amountA: U64, amountB: U64) returns (r: Outcome)
      modifies this
      ensures var spec := DepositAsset.LaterDeposit(old(State()), user, amountA, amountB);
        && (spec.Ok? ==> r == Done && State() == spec.value)
        && (spec.Err? ==> r == Err(spec.failure))
      ensures var all := [DepositAsset.PayInA(user, amountA), DepositAsset.PayInB(user, amountB),
                          MintTo(user, DepositAsset.Minted(old(State()), amountA, amountB))];
        && (r.Ok? ==> calls == old(calls) + all)
        && old(calls) <= calls <= old(calls) + all
      ensures CheckAsset(old(vaultA), old(vaultB), amountA, amountB).Err? ==> calls == old(calls)
    {
      // the accounts as Anchor deserialised them; token calls do not refresh this copy
      var cached := State();
      var checked :- CheckAsset(cached.vaultA, cached.vaultB, amountA, amountB);
      var paidA :- Invoke(DepositAsset.PayInA(user, amountA));
      ghost var afterA := State();
      assert Apply(cached, DepositAsset.PayInA(user, amountA)) == Ok(afterA);
      var paidB :- Invoke(DepositAsset.PayInB(user, amountB));
      ghost var afterB := State();
      assert Apply(afterA, DepositAsset.PayInB(user, amountB)) == Ok(afterB);
      var lpShare :- CalculateLpTokens(amountA, amountB, cached.vaultA, cached.lpSupply);
      r := Invoke(MintTo(user, lpShare));
    }

    /** A deposit instruction: the handler, rolled back if it fails. */
    method Deposit(user: UserId, amountA: U64, amountB: U64) returns (r: Outcome)
      modifies this
      ensures Committed(r, old(State()), State(), DepositAsset.Deposit(old(State()), user, amountA, amountB))
      ensures r.Ok? ==> calls == old(calls) + DepositAsset.DepositCalls(old(State()), user, amountA, amountB)
      ensures !DepositAsset.IsBootstrap(old(State())) && CheckAsset(old(vaultA), old(vaultB), amountA, amountB).Err?
        ==> calls == old(calls)
      ensures old(calls) <= calls <= old(calls) + DepositAsset.DepositCalls(old(State()), user, amountA, amountB)
    {
      var snapshot := State();
      r := DepositHandler(user, amountA, amountB);
      if r.Err? {
        Rollback(snapshot);
      }
    }

    /**
     * The swap handler. On success the balances are those of the swap
     * specification and the calls made are the payment in and the payment
     * out, in that order; when the quote or the slippage check fails no call
     * is made.
     */
    method SwapHandler(user: UserId, isA: bool, amount: U64, minSlippage: U64) returns (r: Outcome)
      modifies this
      ensures var spec := SwapTokens.Swap(old(State()), user, isA, amount, minSlippage, ext.swapToken, ext.swapSlippageCheck);
        && (spec.Ok? ==> r == Done && State() == spec.value)
        && (spec.Err? ==> r == Err(spec.failure))
      ensures var q := ext.swapToken(SwapTokens.SwapToken(isA, amount, old(vaultA), old(vaultB)));
        && (r.Ok? ==> q.Ok? && calls == old(calls) + [
              TransferChecked(SwapTokens.TokenIn(isA), User(user), Vault, amount),
              TransferChecked(SwapTokens.TokenOut(isA), Vault, User(user), q.value)])
        && (q.Err? || ext.swapSlippageCheck(minSlippage, q.value).Err? ==> calls == old(calls))
    {
      var sendAmount :- ext.swapToken(SwapTokens.SwapToken(isA, amount, vaultA, vaultB));
      var checked :- ext.swapSlippageCheck(minSlippage, sendAmount);
      var paidIn :- Invoke(TransferChecked(SwapTokens.TokenIn(isA), User(user), Vault, amount));
      r := Invoke(TransferChecked(SwapTokens.TokenOut(isA), Vault, User(user), sendAmount));
    }

    /** A swap instruction: the handler, rolled back if it fails. */
    method Swap(user: UserId, isA: bool, amount: U64, minSlippage: U64) returns (r: Outcome)
      modifies this
      ensures Committed(r, old(State()), State(),
        SwapTokens.Swap(old(State()), user, isA, amount, minSlippage, ext.swapToken, ext.swapSlippageCheck))
      ensures var q := ext.swapToken(SwapTokens.SwapToken(isA, amount, old(vaultA), old(vaultB)));
        q.Err? || ext.swapSlippageCheck(minSlippage, q.value).Err? ==> calls == old(calls)
    {
      var snapshot := State();
      r := SwapHandler(user, isA, amount, minSlippage);
      if r.Err? {
        Rollback(snapshot);
      }
    }

    /**
     * The withdraw handler. Both owed amounts are computed before any call;
     * on success the calls are vault A to the user, vault B to the user and
     * the burn, in that order.
     */
    method WithdrawHandler(user: UserId, lpAmount: U64) returns (r: Outcome)
      modifies this
      ensures var spec := WithdrawAsset.Withdraw(old(State()), user, lpAmount, ext.withdrawToken);
        && (spec.Ok? ==> r == Done && State() == spec.value)
        && (spec.Err? ==> r == Err(spec.failure))
      ensures var owedA := ext.withdrawToken(old(State()), user, true, lpAmount);
        var owedB := ext.withdrawToken(old(State()), user, false, lpAmount);
        && (r.Ok? ==> owedA.Ok? && owedB.Ok? && calls == old(calls) + [
              TransferChecked(TokenA, Vault, User(user), owedA.value),
              TransferChecked(TokenB, Vault, User(user), owedB.value),
              Burn(user, lpAmount)])
        && (owedA.Err? || owedB.Err? ==> calls == old(calls))
    {
      var cached := State();
      var amountA :- ext.withdrawToken(cached, user, true, lpAmount);
      var amountB :- ext.withdrawToken(cached, user, false, lpAmount);
      var paidA :- Invoke(TransferChecked(TokenA, Vault, User(user), amountA));
      var paidB :- Invoke(TransferChecked(TokenB, Vault, User(user), amountB));
      r := Invoke(Burn(user, lpAmount));
    }

    /** A withdraw instruction: the handler, rolled back if it fails. */
    method Withdraw(user: UserId, lpAmount: U64) returns (r: Outcome)
      modifies this
      ensures Committed(r, old(State()), State(), WithdrawAsset.Withdraw(old(State()), user, lpAmount, ext.withdrawToken))
      ensures var owedA := ext.withdrawToken(old(State()), user, true, lpAmount);
        var owedB := ext.withdrawToken(old(State()), user, false, lpAmount);
        owedA.Err? || owedB.Err? ==> calls == old(calls)
    {
      var snapshot := State();
      r := WithdrawHandler(user, lpAmount);
      if r.Err? {
        Rollback(snapshot);
      }
    }
  }
}
