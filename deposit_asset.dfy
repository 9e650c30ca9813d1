/**
 * The deposit instruction as a function of the balances it starts from.
 *
 * Anchor deserialises every account once, when the instruction starts, and
 * does not reload them after a call into the token program. So the ratio
 * check and the LP share both read the vault A balance and the LP supply the
 * instruction started with, even though the LP share is computed after the
 * two transfers.
 */
module DepositAsset {
  import opened AmmTypes
  import opened Ledger
  import opened Helper

  /** The first deposit into a pool: no LP tokens and both vaults empty. */
  predicate IsBootstrap(s: PoolState)
  {
    s.lpSupply == 0 && s.vaultA == 0 && s.vaultB == 0
  }

  function PayInA(u: UserId, amountA: U64): Cpi
  {
    TransferChecked(TokenA, User(u), Vault, amountA)
  }

  function PayInB(u: UserId, amountB: U64): Cpi
  {
    TransferChecked(TokenB, User(u), Vault, amountB)
  }

  /** The bootstrap path: the two transfers into the empty vaults, and no LP tokens. */
  function FirstDeposit(s: PoolState, u: UserId, amountA: U64, amountB: U64): Result<PoolState>
  {
    var paidA :- Apply(s, PayInA(u, amountA));
    Apply(paidA, PayInB(u, amountB))
  }

  /**
   * Every later deposit: the ratio check, the two transfers, then the LP
   * share computed from the balances read at the start, minted to the
   * provider.
   */
  function LaterDeposit(s: PoolState, u: UserId, amountA: U64, amountB: U64): Result<PoolState>
  {
    var checked :- CheckAsset(s.vaultA, s.vaultB, amountA, amountB);
    var paidA :- Apply(s, PayInA(u, amountA));
    var paidB :- Apply(paidA, PayInB(u, amountB));
    var lpShare :- CalculateLpTokens(amountA, amountB, s.vaultA, s.lpSupply);
    Apply(paidB, MintTo(u, lpShare))
  }

  /** The deposit instruction: the bootstrap path into an empty pool, the ratio-checked path otherwise. */
  function Deposit(s: PoolState, u: UserId, amountA: U64, amountB: U64): Result<PoolState>
  {
    if IsBootstrap(s) then FirstDeposit(s, u, amountA, amountB) else LaterDeposit(s, u, amountA, amountB)
  }

  /**
   * The LP tokens a successful deposit from `s` mints: the share computed
   * from the balances read at the start. On the bootstrap path vault A is
   * empty, so no share is computed and nothing is minted.
   */
  function Minted(s: PoolState, amountA: U64, amountB: U64): U64
  {
    var share := CalculateLpTokens(amountA, amountB, s.vaultA, s.lpSupply);
    if share.Ok? then share.value else 0
  }

  /** The token-program calls a successful deposit makes, in order. */
  function DepositCalls(s: PoolState, u: UserId, amountA: U64, amountB: U64): seq<Cpi>
  {
    if IsBootstrap(s) then [PayInA(u, amountA), PayInB(u, amountB)]
    else [PayInA(u, amountA), PayInB(u, amountB), MintTo(u, Minted(s, amountA, amountB))]
  }

  /**
   * Into an empty pool, a deposit succeeds exactly when the provider holds
   * both amounts; it fills the vaults with them and mints no LP token.
   */
  lemma {:induction false} BootstrapDeposit(s: PoolState, u: UserId, amountA: U64, amountB: U64)
    requires IsBootstrap(s)
    ensures var r := Deposit(s, u, amountA, amountB);
      && (r.Ok? <==> WalletOf(s, u).a >= amountA && WalletOf(s, u).b >= amountB)
      && (r.Err? ==> r.failure == InsufficientFunds)
      && (r.Ok? ==>
            && r.value.vaultA == amountA && r.value.vaultB == amountB
            && WalletOf(r.value, u).a == WalletOf(s, u).a - amountA
            && WalletOf(r.value, u).b == WalletOf(s, u).b - amountB
            && SameLp(s, r.value))
  {
    TransferMoves(s, TokenA, User(u), Vault, amountA);
    var paidA := Apply(s, PayInA(u, amountA));
    if paidA.Ok? {
      TransferMoves(paidA.value, TokenB, User(u), Vault, amountB);
    }
  }

  /**
   * Into a non-empty pool, a deposit the ratio check rejects fails with the
   * check's error before any token moves.
   */
  lemma RatioCheckedFirst(s: PoolState, u: UserId, amountA: U64, amountB: U64)
    requires !IsBootstrap(s)
    requires CheckAsset(s.vaultA, s.vaultB, amountA, amountB).Err?
    ensures Deposit(s, u, amountA, amountB) == Err(CheckAsset(s.vaultA, s.vaultB, amountA, amountB).failure)
  {
  }

  /**
   * A successful deposit: the vaults gain exactly the two amounts, the
   * provider loses them, and the provider and the supply gain the minted LP
   * tokens — none on the bootstrap path, otherwise `calculate_lp_tokens`
   * of the balances the deposit started from. No other user is touched.
   */
  lemma {:induction false} DepositEffect(s: PoolState, u: UserId, amountA: U64, amountB: U64)
    requires Deposit(s, u, amountA, amountB).Ok?
    ensures var r := Deposit(s, u, amountA, amountB).value;
      && (!IsBootstrap(s) ==>
            && CheckAsset(s.vaultA, s.vaultB, amountA, amountB) == Done
            && CalculateLpTokens(amountA, amountB, s.vaultA, s.lpSupply) == Ok(Minted(s, amountA, amountB)))
      && r.vaultA == s.vaultA + amountA && r.vaultB == s.vaultB + amountB
      && WalletOf(r, u).a == WalletOf(s, u).a - amountA
      && WalletOf(r, u).b == WalletOf(s, u).b - amountB
      && WalletOf(r, u).lp == WalletOf(s, u).lp + Minted(s, amountA, amountB)
      && r.lpSupply == s.lpSupply + Minted(s, amountA, amountB)
      && (forall v :: v != u ==> WalletOf(r, v) == WalletOf(s, v))
  {
    var paidA := Apply(s, PayInA(u, amountA));
    TransferMoves(s, TokenA, User(u), Vault, amountA);
    TransferMoves(paidA.value, TokenB, User(u), Vault, amountB);
    var paidB := Apply(paidA.value, PayInB(u, amountB));
    if !IsBootstrap(s) {
      MintMoves(paidB.value, u, Minted(s, amountA, amountB));
    }
  }

  /**
   * Because the LP share is computed after the transfers, a deposit into a
   * pool whose vault A is empty but whose vault B is not, with
   * `amount_a < vault_b + amount_b`, no overflow of `vault_b + amount_b` and
   * a provider holding both amounts, passes the ratio check (both quotients
   * are 0), makes both transfers, and only then aborts on the division by
   * the empty vault A. A larger `amount_a` is rejected by the check itself.
   */
  lemma {:induction false} EmptyVaultADepositAborts(s: PoolState, u: UserId, amountA: U64, amountB: U64)
    requires s.vaultA == 0 && s.vaultB > 0
    requires amountA < s.vaultB + amountB && s.vaultB + amountB <= U64_MAX
    requires WalletOf(s, u).a >= amountA && WalletOf(s, u).b >= amountB
    ensures CheckAsset(s.vaultA, s.vaultB, amountA, amountB) == Done
    ensures Apply(s, PayInA(u, amountA)).Ok?
    ensures Apply(Apply(s, PayInA(u, amountA)).value, PayInB(u, amountB)).Ok?
    ensures Deposit(s, u, amountA, amountB) == Err(DivisionByZero)
  {
    RatioCheckIsCoarse(s.vaultA, s.vaultB, amountA, amountB);
    TransferMoves(s, TokenA, User(u), Vault, amountA);
    var paidA := Apply(s, PayInA(u, amountA)).value;
    TransferMoves(paidA, TokenB, User(u), Vault, amountB);
  }

  /** For mint A and for mint B, provider balance plus vault balance is unchanged by a deposit. */
  lemma {:induction false} DepositConserves(s: PoolState, u: UserId, amountA: U64, amountB: U64)
    requires Deposit(s, u, amountA, amountB).Ok?
    ensures var r := Deposit(s, u, amountA, amountB).value;
      forall t :: Balance(r, User(u), t) + Balance(r, Vault, t) == Balance(s, User(u), t) + Balance(s, Vault, t)
  {
    DepositEffect(s, u, amountA, amountB);
  }

  /**
   * A pool without LP tokens never gets any from a deposit: the bootstrap
   * path mints nothing and every other deposit mints `(a / vault_a) * 0`.
   */
  lemma {:induction false} DepositKeepsSupplyZero(s: PoolState, u: UserId, amountA: U64, amountB: U64)
    requires s.lpSupply == 0
    requires Deposit(s, u, amountA, amountB).Ok?
    ensures Deposit(s, u, amountA, amountB).value.lpSupply == 0
  {
    DepositEffect(s, u, amountA, amountB);
  }
}
