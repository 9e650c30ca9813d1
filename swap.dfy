/**
 * The swap instruction as a function of the balances it starts from.
 *
 * The quote (`SwapToken::swap_token`) and the slippage check
 * (`swap_slippage_check!`) are imported from the crate, but `helper/mod.rs`
 * defines neither; both are parameters, so nothing here depends on their
 * formulas.
 */
module SwapTokens {
  import opened AmmTypes
  import opened Ledger

  /** The quote's input: the direction, the amount paid in and both vault balances. */
  datatype SwapToken = SwapToken(isA: bool, depositAmount: U64, totalAmountA: U64, totalAmountB: U64)

  /** The mint the user pays in: A when `is_a`, otherwise B. */
  function TokenIn(isA: bool): Token
  {
    if isA then TokenA else TokenB
  }

  /** The mint the user receives: always the other one. */
  function TokenOut(isA: bool): (t: Token)
    ensures t != TokenIn(isA)
  {
    if isA then TokenB else TokenA
  }

  /**
   * The swap: quote on the balances read at the start, check the quote
   * against the user's minimum, take `amount` of the input mint into its
   * vault, then pay the quote out of the other vault.
   */
  function Swap(s: PoolState, u: UserId, isA: bool, amount: U64, minSlippage: U64,
                quote: SwapToken -> Result<U64>, slippageCheck: (U64, U64) -> Outcome): Result<PoolState>
  {
    var sendAmount :- quote(SwapToken(isA, amount, s.vaultA, s.vaultB));
    var checked :- slippageCheck(minSlippage, sendAmount);
    var paidIn :- Apply(s, TransferChecked(TokenIn(isA), User(u), Vault, amount));
    Apply(paidIn, TransferChecked(TokenOut(isA), Vault, User(u), sendAmount))
  }

  /** If the quote or the slippage check fails, the swap fails with that error and moves nothing. */
  lemma SwapChecksFirst(s: PoolState, u: UserId, isA: bool, amount: U64, minSlippage: U64,
                        quote: SwapToken -> Result<U64>, slippageCheck: (U64, U64) -> Outcome)
    ensures var q := quote(SwapToken(isA, amount, s.vaultA, s.vaultB));
      && (q.Err? ==> Swap(s, u, isA, amount, minSlippage, quote, slippageCheck) == Err(q.failure))
      && (q.Ok? && slippageCheck(minSlippage, q.value).Err? ==>
            Swap(s, u, isA, amount, minSlippage, quote, slippageCheck) == Err(slippageCheck(minSlippage, q.value).failure))
  {
  }

  /**
   * A successful swap moves `amount` of the input mint from the user into
   * its vault and the quoted amount of the other mint from its vault to the
   * user; the quote is that of the direction, the amount and the two vault
   * balances the swap started from. LP balances, the LP supply and every
   * other user are untouched.
   */
  lemma {:induction false} SwapEffect(s: PoolState, u: UserId, isA: bool, amount: U64, minSlippage: U64,
                                      quote: SwapToken -> Result<U64>, slippageCheck: (U64, U64) -> Outcome)
    requires Swap(s, u, isA, amount, minSlippage, quote, slippageCheck).Ok?
    ensures var r := Swap(s, u, isA, amount, minSlippage, quote, slippageCheck).value;
      var q := quote(SwapToken(isA, amount, s.vaultA, s.vaultB));
      && q.Ok? && slippageCheck(minSlippage, q.value).Ok?
      && (isA ==>
            && WalletOf(r, u).a == WalletOf(s, u).a - amount && r.vaultA == s.vaultA + amount
            && r.vaultB == s.vaultB - q.value && WalletOf(r, u).b == WalletOf(s, u).b + q.value)
      && (!isA ==>
            && WalletOf(r, u).b == WalletOf(s, u).b - amount && r.vaultB == s.vaultB + amount
            && r.vaultA == s.vaultA - q.value && WalletOf(r, u).a == WalletOf(s, u).a + q.value)
      && SameLp(s, r)
      && (forall v :: v != u ==> WalletOf(r, v) == WalletOf(s, v))
  {
    var q := quote(SwapToken(isA, amount, s.vaultA, s.vaultB));
    TransferMoves(s, TokenIn(isA), User(u), Vault, amount);
    var paidIn := Apply(s, TransferChecked(TokenIn(isA), User(u), Vault, amount)).value;
    TransferMoves(paidIn, TokenOut(isA), Vault, User(u), q.value);
  }

  /** For mint A and for mint B, user balance plus vault balance is unchanged by a swap. */
  lemma {:induction false} SwapConserves(s: PoolState, u: UserId, isA: bool, amount: U64, minSlippage: U64,
                                         quote: SwapToken -> Result<U64>, slippageCheck: (U64, U64) -> Outcome)
    requires Swap(s, u, isA, amount, minSlippage, quote, slippageCheck).Ok?
    ensures var r := Swap(s, u, isA, amount, minSlippage, quote, slippageCheck).value;
      forall t :: Balance(r, User(u), t) + Balance(r, Vault, t) == Balance(s, User(u), t) + Balance(s, Vault, t)
  {
    SwapEffect(s, u, isA, amount, minSlippage, quote, slippageCheck);
  }
}
