/**
 * The balances an instruction of the pool touches, and the three SPL token
 * program calls the instructions make (`transfer_checked`, `mint_to`,
 * `burn`), each modelled as a move on those balances that fails when the
 * source holds too little or a destination would overflow `u64`.
 */
module Ledger {
  import opened AmmTypes

  type UserId = nat

  /** A user's three token accounts: mint A, mint B and the pool's LP mint. */
  datatype Wallet = Wallet(a: U64, b: U64, lp: U64)

  /**
   * The pool's two vaults, the LP mint's supply and every user's token
   * accounts. A user absent from `wallets` holds nothing.
   */
  datatype PoolState = PoolState(vaultA: U64, vaultB: U64, lpSupply: U64, wallets: map<UserId, Wallet>)

  /** The pool's two traded mints. */
  datatype Token = TokenA | TokenB

  /** The owner of a token account of mint A or B: the pool (its vault) or a user. */
  datatype Holder = Vault | User(id: UserId)

  /** A call into the token program. */
  datatype Cpi =
    | TransferChecked(mint: Token, from: Holder, to: Holder, amount: U64)
    | MintTo(recipient: UserId, amount: U64)
    | Burn(owner: UserId, amount: U64)

  function WalletOf(s: PoolState, u: UserId): Wallet
  {
    if u in s.wallets then s.wallets[u] else Wallet(0, 0, 0)
  }

  function Balance(s: PoolState, h: Holder, t: Token): U64
  {
    match h
    case Vault => if t == TokenA then s.vaultA else s.vaultB
    case User(u) => if t == TokenA then WalletOf(s, u).a else WalletOf(s, u).b
  }

  function WithBalance(s: PoolState, h: Holder, t: Token, v: U64): (r: PoolState)
    ensures Balance(r, h, t) == v
    ensures forall g, k :: (g != h || k != t) ==> Balance(r, g, k) == Balance(s, g, k)
    ensures r.lpSupply == s.lpSupply
    ensures forall u :: WalletOf(r, u).lp == WalletOf(s, u).lp
    ensures forall u :: User(u) != h ==> WalletOf(r, u) == WalletOf(s, u)
  {
    match h
    case Vault => if t == TokenA then s.(vaultA := v) else s.(vaultB := v)
    case User(u) =>
      var w := WalletOf(s, u);
      s.(wallets := s.wallets[u := if t == TokenA then w.(a := v) else w.(b := v)])
  }

  /** What the token program does with one call: the new balances, or its error. */
  function Apply(s: PoolState, c: Cpi): Result<PoolState>
  {
    match c
    case TransferChecked(t, from, to, amount) =>
      var source := Balance(s, from, t);
      var destination := Balance(s, to, t);
      if source < amount then Err(InsufficientFunds)
      else if from == to then Ok(s) // a transfer to the same account changes nothing
      else if destination + amount > U64_MAX then Err(TokenOverflow)
      else Ok(WithBalance(WithBalance(s, from, t, source - amount), to, t, destination + amount))
    case MintTo(u, amount) =>
      var w := WalletOf(s, u);
      if w.lp + amount > U64_MAX || s.lpSupply + amount > U64_MAX then Err(TokenOverflow)
      else Ok(s.(lpSupply := s.lpSupply + amount, wallets := s.wallets[u := w.(lp := w.lp + amount)]))
    case Burn(u, amount) =>
      var w := WalletOf(s, u);
      if w.lp < amount then Err(InsufficientFunds)
      else if s.lpSupply < amount then Err(TokenOverflow)
      else Ok(s.(lpSupply := s.lpSupply - amount, wallets := s.wallets[u := w.(lp := w.lp - amount)]))
  }

  /** Every LP balance and the LP supply agree. */
  ghost predicate SameLp(s: PoolState, r: PoolState)
  {
    r.lpSupply == s.lpSupply && forall u :: WalletOf(r, u).lp == WalletOf(s, u).lp
  }

  /**
   * A transfer between two different accounts succeeds exactly when the
   * source holds the amount and the destination can take it; it then moves
   * exactly that amount and changes no other balance.
   */
  lemma TransferMoves(s: PoolState, t: Token, from: Holder, to: Holder, amount: U64)
    requires from != to
    ensures var r := Apply(s, TransferChecked(t, from, to, amount));
      && (r.Ok? <==> Balance(s, from, t) >= amount && Balance(s, to, t) + amount <= U64_MAX)
      && (r.Err? ==> r.failure == (if Balance(s, from, t) < amount then InsufficientFunds else TokenOverflow))
      && (r.Ok? ==>
            && Balance(r.value, from, t) == Balance(s, from, t) - amount
            && Balance(r.value, to, t) == Balance(s, to, t) + amount
            && (forall g, k :: (g != from && g != to) || k != t ==> Balance(r.value, g, k) == Balance(s, g, k))
            && (forall v :: User(v) != from && User(v) != to ==> WalletOf(r.value, v) == WalletOf(s, v))
            && SameLp(s, r.value))
  {
  }

  /**
   * Minting credits the user's LP account and the supply by the amount and
   * touches nothing else; it fails only when either would overflow.
   */
  lemma MintMoves(s: PoolState, u: UserId, amount: U64)
    ensures var r := Apply(s, MintTo(u, amount));
      && (r.Ok? <==> WalletOf(s, u).lp + amount <= U64_MAX && s.lpSupply + amount <= U64_MAX)
      && (r.Err? ==> r.failure == TokenOverflow)
      && (r.Ok? ==>
            && r.value.lpSupply == s.lpSupply + amount
            && WalletOf(r.value, u).lp == WalletOf(s, u).lp + amount
            && (forall v :: v != u ==> WalletOf(r.value, v) == WalletOf(s, v))
            && (forall g, k :: Balance(r.value, g, k) == Balance(s, g, k)))
  {
  }

  /**
   * Burning debits the user's LP account and the supply by the amount and
   * touches nothing else; it fails when the user holds too little.
   */
  lemma BurnMoves(s: PoolState, u: UserId, amount: U64)
    ensures var r := Apply(s, Burn(u, amount));
      && (r.Ok? <==> WalletOf(s, u).lp >= amount && s.lpSupply >= amount)
      && (WalletOf(s, u).lp < amount ==> r == Err(InsufficientFunds))
      && (r.Ok? ==>
            && r.value.lpSupply == s.lpSupply - amount
            && WalletOf(r.value, u).lp == WalletOf(s, u).lp - amount
            && (forall v :: v != u ==> WalletOf(r.value, v) == WalletOf(s, v))
            && (forall g, k :: Balance(r.value, g, k) == Balance(s, g, k)))
  {
  }
}
