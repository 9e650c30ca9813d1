/**
 * The withdraw instruction as a function of the balances it starts from.
 *
 * The amounts owed for an LP amount (`withdraw_token!`) come from a macro
 * imported from the crate that `helper/mod.rs` does not define; the
 * computation is a parameter that sees the instruction's accounts as read at
 * the start, the side (A or B) and the LP amount.
 */
module WithdrawAsset {
  import opened AmmTypes
  import opened Ledger

  /**
   * The withdrawal: both owed amounts from the balances read at the start,
   * then vault A to the user, vault B to the user, and the LP amount burnt.
   */
  function Withdraw(s: PoolState, u: UserId, lpAmount: U64,
                    withdrawToken: (PoolState, UserId, bool, U64) -> Result<U64>): Result<PoolState>
  {
    var amountA :- withdrawToken(s, u, true, lpAmount);
    var amountB :- withdrawToken(s, u, false, lpAmount);
    var paidA :- Apply(s, TransferChecked(TokenA, Vault, User(u), amountA));
    var paidB :- Apply(paidA, TransferChecked(TokenB, Vault, User(u), amountB));
    Apply(paidB, Burn(u, lpAmount))
  }

  /** If either owed amount cannot be computed, the withdrawal fails with that error and moves nothing. */
  lemma OwedFirst(s: PoolState, u: UserId, lpAmount: U64, withdrawToken: (PoolState, UserId, bool, U64) -> Result<U64>)
    ensures withdrawToken(s, u, true, lpAmount).Err? ==>
      Withdraw(s, u, lpAmount, withdrawToken) == Err(withdrawToken(s, u, true, lpAmount).failure)
    ensures withdrawToken(s, u, true, lpAmount).Ok? && withdrawToken(s, u, false, lpAmount).Err? ==>
      Withdraw(s, u, lpAmount, withdrawToken) == Err(withdrawToken(s, u, false, lpAmount).failure)
  {
  }

  /**
   * A successful withdrawal pays the user the two owed amounts, both
   * computed from the balances the withdrawal started from, out of the
   * vaults, and burns exactly the LP amount from the user's LP account and
   * from the supply. No other user is touched.
   */
  lemma {:induction false} WithdrawEffect(s: PoolState, u: UserId, lpAmount: U64,
                                          withdrawToken: (PoolState, UserId, bool, U64) -> Result<U64>)
    requires Withdraw(s, u, lpAmount, withdrawToken).Ok?
    ensures var r := Withdraw(s, u, lpAmount, withdrawToken).value;
      var owedA := withdrawToken(s, u, true, lpAmount);
      var owedB := withdrawToken(s, u, false, lpAmount);
      && owedA.Ok? && owedB.Ok?
      && r.vaultA == s.vaultA - owedA.value && WalletOf(r, u).a == WalletOf(s, u).a + owedA.value
      && r.vaultB == s.vaultB - owedB.value && WalletOf(r, u).b == WalletOf(s, u).b + owedB.value
      && r.lpSupply == s.lpSupply - lpAmount && WalletOf(r, u).lp == WalletOf(s, u).lp - lpAmount
      && (forall v :: v != u ==> WalletOf(r, v) == WalletOf(s, v))
  {
    var owedA := withdrawToken(s, u, true, lpAmount).value;
    var owedB := withdrawToken(s, u, false, lpAmount).value;
    TransferMoves(s, TokenA, Vault, User(u), owedA);
    var paidA := Apply(s, TransferChecked(TokenA, Vault, User(u), owedA)).value;
    TransferMoves(paidA, TokenB, Vault, User(u), owedB);
    var paidB := Apply(paidA, TransferChecked(TokenB, Vault, User(u), owedB)).value;
    BurnMoves(paidB, u, lpAmount);
  }

  /** For mint A and for mint B, user balance plus vault balance is unchanged by a withdrawal. */
  lemma {:induction false} WithdrawConserves(s: PoolState, u: UserId, lpAmount: U64,
                                             withdrawToken: (PoolState, UserId, bool, U64) -> Result<U64>)
    requires Withdraw(s, u, lpAmount, withdrawToken).Ok?
    ensures var r := Withdraw(s, u, lpAmount, withdrawToken).value;
      forall t :: Balance(r, User(u), t) + Balance(r, Vault, t) == Balance(s, User(u), t) + Balance(s, Vault, t)
  {
    WithdrawEffect(s, u, lpAmount, withdrawToken);
  }

  /** A withdrawal of more LP tokens than the user holds fails. */
  lemma {:induction false} WithdrawNeedsLp(s: PoolState, u: UserId, lpAmount: U64,
                                           withdrawToken: (PoolState, UserId, bool, U64) -> Result<U64>)
    requires WalletOf(s, u).lp < lpAmount
    ensures Withdraw(s, u, lpAmount, withdrawToken).Err?
  {
    if Withdraw(s, u, lpAmount, withdrawToken).Ok? {
      WithdrawEffect(s, u, lpAmount, withdrawToken);
    }
  }
}
