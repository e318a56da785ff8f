/** Lamport and token balances of one chain, and the transfers the runtime performs on them.
    Each transfer is exact: it names every balance it changes. */
module Ledgers {
  import opened Types

  datatype Mint = Mint(decimals: byte, supply: u64)

  /** `tokens` is keyed by owner and mint: every owner has one account for each mint. */
  datatype Ledger = Ledger(lamports: map<Pubkey, u64>, tokens: map<(Pubkey, Pubkey), u64>, mints: map<Pubkey, Mint>)

  function Lamports(l: Ledger, k: Pubkey): u64 {
    if k in l.lamports then l.lamports[k] else 0
  }

  function Tokens(l: Ledger, owner: Pubkey, mint: Pubkey): u64 {
    if (owner, mint) in l.tokens then l.tokens[(owner, mint)] else 0
  }

  function Supply(l: Ledger, mint: Pubkey): u64 {
    if mint in l.mints then l.mints[mint].supply else 0
  }

  function AddLamports(l: Ledger, k: Pubkey, n: u64): (r: Result<Ledger>)
    ensures r.Ok? <==> Lamports(l, k) + n <= U64_MAX
    ensures r.Ok? ==> r.value.tokens == l.tokens && r.value.mints == l.mints
  {
    if Lamports(l, k) + n > U64_MAX then Err(Overflow)
    else Ok(l.(lamports := l.lamports[k := Lamports(l, k) + n]))
  }

  function SubLamports(l: Ledger, k: Pubkey, n: u64): (r: Result<Ledger>)
    ensures r.Ok? <==> n <= Lamports(l, k)
    ensures r.Ok? ==> r.value.tokens == l.tokens && r.value.mints == l.mints
  {
    if Lamports(l, k) < n then Err(BalanceTooLow)
    else Ok(l.(lamports := l.lamports[k := Lamports(l, k) - n]))
  }

  /** Debit then credit, so a transfer to oneself changes nothing. */
  function MoveLamports(l: Ledger, from: Pubkey, to: Pubkey, n: u64): (r: Result<Ledger>)
    ensures r.Ok? <==> n <= Lamports(l, from) && (from == to || Lamports(l, to) + n <= U64_MAX)
    ensures r.Ok? ==> r.value.tokens == l.tokens && r.value.mints == l.mints
  {
    var debited :- SubLamports(l, from, n);
    AddLamports(debited, to, n)
  }

  function AddTokens(l: Ledger, owner: Pubkey, mint: Pubkey, n: u64): (r: Result<Ledger>)
    ensures r.Ok? <==> Tokens(l, owner, mint) + n <= U64_MAX
    ensures r.Ok? ==> r.value.lamports == l.lamports && r.value.mints == l.mints
  {
    if Tokens(l, owner, mint) + n > U64_MAX then Err(Overflow)
    else Ok(l.(tokens := l.tokens[(owner, mint) := Tokens(l, owner, mint) + n]))
  }

  function SubTokens(l: Ledger, owner: Pubkey, mint: Pubkey, n: u64): (r: Result<Ledger>)
    ensures r.Ok? <==> n <= Tokens(l, owner, mint)
    ensures r.Ok? ==> r.value.lamports == l.lamports && r.value.mints == l.mints
  {
    if Tokens(l, owner, mint) < n then Err(BalanceTooLow)
    else Ok(l.(tokens := l.tokens[(owner, mint) := Tokens(l, owner, mint) - n]))
  }

  /** `transfer_checked`. */
  function MoveTokens(l: Ledger, from: Pubkey, to: Pubkey, mint: Pubkey, n: u64): (r: Result<Ledger>)
    ensures r.Ok? <==> n <= Tokens(l, from, mint) && (from == to || Tokens(l, to, mint) + n <= U64_MAX)
    ensures r.Ok? ==> r.value.lamports == l.lamports && r.value.mints == l.mints
  {
    var debited :- SubTokens(l, from, mint, n);
    AddTokens(debited, to, mint, n)
  }

  /** `mint_to`. */
  function MintTokens(l: Ledger, to: Pubkey, mint: Pubkey, n: u64): (r: Result<Ledger>)
    requires mint in l.mints
    ensures r.Ok? <==> Supply(l, mint) + n <= U64_MAX && Tokens(l, to, mint) + n <= U64_MAX
    ensures r.Ok? ==> r.value.lamports == l.lamports && r.value.mints.Keys == l.mints.Keys
  {
    if Supply(l, mint) + n > U64_MAX then Err(Overflow)
    else
      var credited :- AddTokens(l, to, mint, n);
      Ok(credited.(mints := l.mints[mint := l.mints[mint].(supply := Supply(l, mint) + n)]))
  }

  /** `burn`. A balance is never above its supply; the runtime still checks the subtraction. */
  function BurnTokens(l: Ledger, from: Pubkey, mint: Pubkey, n: u64): (r: Result<Ledger>)
    requires mint in l.mints
    ensures r.Ok? <==> n <= Tokens(l, from, mint) && n <= Supply(l, mint)
    ensures r.Ok? ==> r.value.lamports == l.lamports && r.value.mints.Keys == l.mints.Keys
  {
    var debited :- SubTokens(l, from, mint, n);
    if Supply(l, mint) < n then Err(Overflow)
    else Ok(debited.(mints := l.mints[mint := l.mints[mint].(supply := Supply(l, mint) - n)]))
  }

  // What the operations do to every balance.

  lemma AddLamportsEffect(l: Ledger, k: Pubkey, n: u64)
    requires AddLamports(l, k, n).Ok?
    ensures var t := AddLamports(l, k, n).value;
            forall x: Pubkey :: Lamports(t, x) == Lamports(l, x) + if x == k then n else 0
  {
  }

  lemma SubLamportsEffect(l: Ledger, k: Pubkey, n: u64)
    requires SubLamports(l, k, n).Ok?
    ensures var t := SubLamports(l, k, n).value;
            forall x: Pubkey :: Lamports(t, x) == Lamports(l, x) - if x == k then n else 0
  {
  }

  lemma MoveLamportsEffect(l: Ledger, from: Pubkey, to: Pubkey, n: u64)
    requires MoveLamports(l, from, to, n).Ok?
    ensures var t := MoveLamports(l, from, to, n).value;
            forall x: Pubkey :: Lamports(t, x) ==
              Lamports(l, x) - (if x == from then n else 0) + if x == to then n else 0
  {
  }

  lemma MoveTokensEffect(l: Ledger, from: Pubkey, to: Pubkey, mint: Pubkey, n: u64)
    requires MoveTokens(l, from, to, mint, n).Ok?
    ensures var t := MoveTokens(l, from, to, mint, n).value;
            forall x: Pubkey, m: Pubkey :: Tokens(t, x, m) ==
              Tokens(l, x, m) - (if x == from && m == mint then n else 0) + if x == to && m == mint then n else 0
  {
  }

  lemma MintTokensEffect(l: Ledger, to: Pubkey, mint: Pubkey, n: u64)
    requires mint in l.mints && MintTokens(l, to, mint, n).Ok?
    ensures var t := MintTokens(l, to, mint, n).value;
            && (forall m: Pubkey :: Supply(t, m) == Supply(l, m) + if m == mint then n else 0)
            && forall x: Pubkey, m: Pubkey :: Tokens(t, x, m) == Tokens(l, x, m) + if x == to && m == mint then n else 0
  {
  }

  lemma BurnTokensEffect(l: Ledger, from: Pubkey, mint: Pubkey, n: u64)
    requires mint in l.mints && BurnTokens(l, from, mint, n).Ok?
    ensures var t := BurnTokens(l, from, mint, n).value;
            && (forall m: Pubkey :: Supply(t, m) == Supply(l, m) - if m == mint then n else 0)
            && forall x: Pubkey, m: Pubkey ::
                 Tokens(t, x, m) == Tokens(l, x, m) - if x == from && m == mint then n else 0
  {
  }

  /** Balances depend on the part of the ledger that holds them. */
  lemma SameBalances(l: Ledger, t: Ledger)
    ensures l.lamports == t.lamports ==> forall x: Pubkey :: Lamports(t, x) == Lamports(l, x)
    ensures l.tokens == t.tokens ==> forall x: Pubkey, m: Pubkey :: Tokens(t, x, m) == Tokens(l, x, m)
    ensures l.mints == t.mints ==> forall m: Pubkey :: Supply(t, m) == Supply(l, m)
  {
  }
}
