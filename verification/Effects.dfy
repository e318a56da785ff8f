/** What a successful transfer does to every balance of its chain. */
module Effects {
  import opened Types
  import opened Payloads
  import opened Ledgers
  import opened BridgeSpec

  /** The lamports a claim pays: its amount for SOL, its gas for a token. */
  function SolOut(c: Claim): u64 {
    if c.SolClaim? then c.amount else c.gas
  }

  /** `t` is `s` with `n` lamports paid to the recipient: minted on Solayer, out of the handler on Solana. */
  ghost predicate SolPaid(cfg: Config, chain: Chain, s: Ledger, t: Ledger, recipient: Pubkey, n: u64) {
    && t.tokens == s.tokens && t.mints == s.mints
    && (chain == Solana && n > 0 ==> cfg.rent + n <= Lamports(s, cfg.handler))
    && forall x: Pubkey :: Lamports(t, x) == Lamports(s, x)
         + (if x == recipient then n else 0) - (if chain == Solana && x == cfg.handler then n else 0)
  }

  lemma PaySolEffect(cfg: Config, chain: Chain, s: Ledger, recipient: Pubkey, n: u64)
    requires PaySol(cfg, chain, s, recipient, n).Ok?
    ensures SolPaid(cfg, chain, s, PaySol(cfg, chain, s, recipient, n).value, recipient, n)
  {
    hide MoveLamports, AddLamports;
    SameBalances(s, PaySol(cfg, chain, s, recipient, n).value);
    if chain == Solayer {
      AddLamportsEffect(s, recipient, n);
    } else {
      MoveLamportsEffect(s, cfg.handler, recipient, n);
    }
  }

  /** `t` is `s` with `n` tokens delivered: out of the handler's vault if native, minted if not. */
  ghost predicate TokensPaid(cfg: Config, native: bool, s: Ledger, t: Ledger, mint: Pubkey, recipient: Pubkey, n: u64) {
    && t.lamports == s.lamports && t.mints.Keys == s.mints.Keys
    && (forall m: Pubkey :: Supply(t, m) == Supply(s, m) + if m == mint && !native then n else 0)
    && forall x: Pubkey, m: Pubkey :: Tokens(t, x, m) == Tokens(s, x, m)
         + (if x == recipient && m == mint then n else 0)
         - (if native && x == cfg.handler && m == mint then n else 0)
  }

  lemma PayTokensEffect(cfg: Config, native: bool, s: Ledger, mint: Pubkey, recipient: Pubkey, n: u64)
    requires mint in s.mints && PayTokens(cfg, native, s, mint, recipient, n).Ok?
    ensures TokensPaid(cfg, native, s, PayTokens(cfg, native, s, mint, recipient, n).value, mint, recipient, n)
  {
    hide MoveTokens, MintTokens;
    SameBalances(s, PayTokens(cfg, native, s, mint, recipient, n).value);
    if native {
      MoveTokensEffect(s, cfg.handler, recipient, mint, n);
    } else {
      MintTokensEffect(s, recipient, mint, n);
    }
  }

  /** The whole effect of a payout on the balances: the claim's recipient, mint, amount and gas, no more. */
  ghost predicate Paid(cfg: Config, s: State, t: Ledger, c: Claim) {
    && t.mints.Keys == s.ledger.mints.Keys
    && (s.chain == Solana && SolOut(c) > 0 ==> cfg.rent + SolOut(c) <= Lamports(s.ledger, cfg.handler))
    && (forall x: Pubkey :: Lamports(t, x) == Lamports(s.ledger, x)
          + (if x == c.recipient then SolOut(c) else 0)
          - (if s.chain == Solana && x == cfg.handler then SolOut(c) else 0))
    && (forall m: Pubkey :: Supply(t, m) == Supply(s.ledger, m) + Minted(s, c, m))
    && forall x: Pubkey, m: Pubkey :: Tokens(t, x, m) == Tokens(s.ledger, x, m)
          + (if x == c.recipient then Minted(s, c, m) + Unlocked(s, c, m) else 0)
          - (if x == cfg.handler then Unlocked(s, c, m) else 0)
  }

  function Minted(s: State, c: Claim, m: Pubkey): u64 {
    if c.TokenClaim? && c.mint == m && m in s.tokens && !NativeHere(s.chain, s.tokens[m]) then c.amount else 0
  }

  function Unlocked(s: State, c: Claim, m: Pubkey): u64 {
    if c.TokenClaim? && c.mint == m && m in s.tokens && NativeHere(s.chain, s.tokens[m]) then c.amount else 0
  }

  lemma TokensThenGas(cfg: Config, s: State, l: Ledger, t: Ledger, c: Claim)
    requires c.TokenClaim? && c.mint in s.tokens
    requires TokensPaid(cfg, NativeHere(s.chain, s.tokens[c.mint]), s.ledger, l, c.mint, c.recipient, c.amount)
    requires SolPaid(cfg, s.chain, l, t, c.recipient, c.gas)
    ensures Paid(cfg, s, t, c)
  {
    hide Lamports, Tokens, Supply, NativeHere;
    SameBalances(s.ledger, l);
    SameBalances(l, t);
  }

  lemma PayEffect(cfg: Config, s: State, c: Claim)
    requires c.TokenClaim? ==> c.mint in s.tokens && c.mint in s.ledger.mints
    requires Pay(cfg, s, c).Ok?
    ensures Paid(cfg, s, Pay(cfg, s, c).value, c)
  {
    hide PaySol, PayTokens, TokensPaid;
    match c
    case TokenClaim(_, recipient, _, mint, amount, _, _, gas) =>
      hide Paid, NativeHere;
      var native := NativeHere(s.chain, s.tokens[mint]);
      PayTokensEffect(cfg, native, s.ledger, mint, recipient, amount);
      var l := PayTokens(cfg, native, s.ledger, mint, recipient, amount).value;
      if gas > 0 {
        PaySolEffect(cfg, s.chain, l, recipient, gas);
      }
      TokensThenGas(cfg, s, l, Pay(cfg, s, c).value, c);
    case SolClaim(_, recipient, amount, _, _) => PaySolEffect(cfg, s.chain, s.ledger, recipient, amount);
  }

  /** A successful release pays exactly its claim, leaves its proof, closes its record and touches nothing
      else but the cap. */
  lemma ReleaseEffect(cfg: Config, s: State, operator: Pubkey, d: Digest, c: Claim, clock: Clock)
    requires Released(cfg, s, operator, d, c, clock).Ok?
    ensures var t := Released(cfg, s, operator, d, c, clock).value;
            && Paid(cfg, s, t.ledger, c)
            && cfg.hash(c.txId) !in s.proofs
            && (c.TokenClaim? ==> c.mint in s.tokens && c.mint in s.ledger.mints)
            && t == s.(cap := t.cap, ledger := t.ledger,
                       proofs := s.proofs[cfg.hash(c.txId) := Proof(d, c.txId, c.recipient, clock.time)],
                       records := s.records - {d})
  {
    hide Pay, ChargedCap, Paid;
    PayEffect(cfg, s, c);
  }

  // ---------------------------------------------------------------- source

  /** `t` is `s` with `n` lamports taken from the signer: burned on Solayer, to the handler on Solana. */
  ghost predicate SolTaken(cfg: Config, chain: Chain, s: Ledger, t: Ledger, signer: Pubkey, n: u64) {
    && t.tokens == s.tokens && t.mints == s.mints
    && forall x: Pubkey :: Lamports(t, x) == Lamports(s, x)
         - (if x == signer then n else 0) + (if chain == Solana && x == cfg.handler then n else 0)
  }

  lemma TakeSolEffect(cfg: Config, chain: Chain, s: Ledger, signer: Pubkey, n: u64)
    requires TakeSol(cfg, chain, s, signer, n).Ok?
    ensures SolTaken(cfg, chain, s, TakeSol(cfg, chain, s, signer, n).value, signer, n)
  {
    hide MoveLamports, SubLamports;
    SameBalances(s, TakeSol(cfg, chain, s, signer, n).value);
    if chain == Solayer {
      SubLamportsEffect(s, signer, n);
    } else {
      MoveLamportsEffect(s, signer, cfg.handler, n);
    }
  }

  lemma TakeGasEffect(cfg: Config, chain: Chain, s: Ledger, signer: Pubkey, gas: u64)
    requires TakeGas(cfg, chain, s, signer, gas).Ok?
    ensures SolTaken(cfg, chain, s, TakeGas(cfg, chain, s, signer, gas).value, signer, gas)
  {
    hide TakeSol;
    if gas > 0 {
      TakeSolEffect(cfg, chain, s, signer, gas);
    }
  }

  /** A token is locked where it is native, also on first use; it is burned where it is wrapped. */
  predicate Locks(s: State, mint: Pubkey) {
    !Classified(s.tokens, mint) || NativeHere(s.chain, s.tokens[mint])
  }

  function MetadataFee(s: State, mint: Pubkey): u64 {
    if !Classified(s.tokens, mint) && s.chain == Solayer then METADATA_CREATION_FEE else 0
  }

  ghost predicate TokensTaken(cfg: Config, s: Ledger, t: Ledger, signer: Pubkey, mint: Pubkey, n: u64, locks: bool,
                              feeVault: Pubkey, fee: u64) {
    && t.mints.Keys == s.mints.Keys
    && (forall x: Pubkey :: Lamports(t, x) == Lamports(s, x)
          - (if x == signer then fee else 0)
          + (if x == feeVault then fee else 0))
    && (forall m: Pubkey :: Supply(t, m) == Supply(s, m) - if m == mint && !locks then n else 0)
    && forall x: Pubkey, m: Pubkey :: Tokens(t, x, m) == Tokens(s, x, m)
         - (if x == signer && m == mint then n else 0)
         + (if locks && x == cfg.handler && m == mint then n else 0)
  }

  lemma TakeTokensEffect(cfg: Config, s: State, l: Ledger, signer: Pubkey, mint: Pubkey, n: u64, targetMint: Pubkey)
    requires mint in l.mints && TakeTokens(cfg, s.chain, s.tokens, s.feeVault, l, signer, mint, n, targetMint).Ok?
    ensures TokensTaken(cfg, l, TakeTokens(cfg, s.chain, s.tokens, s.feeVault, l, signer, mint, n, targetMint).value.0,
                        signer, mint, n, Locks(s, mint), s.feeVault, MetadataFee(s, mint))
  {
    hide MoveTokens, MoveLamports, BurnTokens, Lamports, Tokens, Supply;
    var t := TakeTokens(cfg, s.chain, s.tokens, s.feeVault, l, signer, mint, n, targetMint).value.0;
    SameBalances(l, t);
    if Locks(s, mint) {
      var locked := MoveTokens(l, signer, cfg.handler, mint, n).value;
      MoveTokensEffect(l, signer, cfg.handler, mint, n);
      SameBalances(l, locked);
      SameBalances(locked, t);
      if MetadataFee(s, mint) > 0 {
        MoveLamportsEffect(locked, signer, s.feeVault, METADATA_CREATION_FEE);
      }
    } else {
      BurnTokensEffect(l, signer, mint, n);
    }
  }

  /** The whole effect of a source call on the balances. */
  ghost predicate Taken(cfg: Config, s: State, t: Ledger, signer: Pubkey, sol: u64, fees: nat,
                        token: Option<(Pubkey, u64)>)
  {
    && t.mints.Keys == s.ledger.mints.Keys
    && (forall x: Pubkey :: Lamports(t, x) == Lamports(s.ledger, x)
          - (if x == signer then sol + fees else 0)
          + (if s.chain == Solana && x == cfg.handler then sol else 0)
          + (if x == s.feeVault then fees else 0))
    && (forall m: Pubkey :: Supply(t, m) == Supply(s.ledger, m) - Burned(s, token, m))
    && forall x: Pubkey, m: Pubkey :: Tokens(t, x, m) == Tokens(s.ledger, x, m)
          - (if x == signer then Burned(s, token, m) + Locked(s, token, m) else 0)
          + (if x == cfg.handler then Locked(s, token, m) else 0)
  }

  function Burned(s: State, token: Option<(Pubkey, u64)>, m: Pubkey): u64 {
    if token.Some? && token.value.0 == m && !Locks(s, m) then token.value.1 else 0
  }

  function Locked(s: State, token: Option<(Pubkey, u64)>, m: Pubkey): u64 {
    if token.Some? && token.value.0 == m && Locks(s, m) then token.value.1 else 0
  }

  /** The fee, then the gas, then the token. */
  lemma StagesTaken(cfg: Config, s: State, afterFee: Ledger, afterGas: Ledger, t: Ledger, signer: Pubkey,
                    mint: Pubkey, amount: u64, gas: u64)
    requires Ok(afterFee) == MoveLamports(s.ledger, signer, s.feeVault, s.fee)
    requires SolTaken(cfg, s.chain, afterFee, afterGas, signer, gas)
    requires TokensTaken(cfg, afterGas, t, signer, mint, amount, Locks(s, mint), s.feeVault, MetadataFee(s, mint))
    ensures Taken(cfg, s, t, signer, gas, s.fee + MetadataFee(s, mint), Some((mint, amount)))
  {
    hide MoveLamports, Locks, MetadataFee, Lamports, Tokens, Supply;
    MoveLamportsEffect(s.ledger, signer, s.feeVault, s.fee);
    SameBalances(s.ledger, afterFee);
    SameBalances(afterFee, afterGas);
  }

  /** A successful token transfer locks or burns the amount, takes the gas and the fees, and records itself. */
  lemma SourceTokenEffect(cfg: Config, s: State, signer: Pubkey, mint: Pubkey, amount: u64, recipient: Pubkey,
                          targetMint: Pubkey, gas: u64, proofNonce: u64, clock: Clock)
    requires SourcedToken(cfg, s, signer, mint, amount, recipient, targetMint, gas, proofNonce, clock).Ok?
    ensures var t := SourcedToken(cfg, s, signer, mint, amount, recipient, targetMint, gas, proofNonce, clock).value;
            && signer != cfg.handler && mint in s.ledger.mints
            && (gas > 0 ==> MIN_SOL_BRIDGE_AMOUNT <= gas <= MAX_ADDITIONAL_SOL_GAS)
            && Taken(cfg, s, t.ledger, signer, gas, s.fee + MetadataFee(s, mint), Some((mint, amount)))
            && Written(cfg, s, t, signer, recipient, mint, amount, proofNonce, clock,
                       s.tokens[mint :=
                         if Classified(s.tokens, mint) then s.tokens[mint] else NativeInfo(s.chain, mint, targetMint)])
  {
    hide TakeGas, TakeTokens, MoveLamports, Locks, MetadataFee, SolTaken, TokensTaken, Taken;
    var afterFee := MoveLamports(s.ledger, signer, s.feeVault, s.fee).value;
    TakeGasEffect(cfg, s.chain, afterFee, signer, gas);
    GasRange(cfg, s.chain, afterFee, signer, gas);
    var afterGas := TakeGas(cfg, s.chain, afterFee, signer, gas).value;
    TakeTokensEffect(cfg, s, afterGas, signer, mint, amount, targetMint);
    var t := TakeTokens(cfg, s.chain, s.tokens, s.feeVault, afterGas, signer, mint, amount, targetMint).value.0;
    StagesTaken(cfg, s, afterFee, afterGas, t, signer, mint, amount, gas);
    TakenRecord(cfg, s, afterGas, signer, mint, amount, targetMint);
  }

  /** Taking a token creates no mint and writes a record only for a token seen for the first time. */
  lemma TakenRecord(cfg: Config, s: State, l: Ledger, signer: Pubkey, mint: Pubkey, amount: u64, targetMint: Pubkey)
    requires mint in l.mints && TakeTokens(cfg, s.chain, s.tokens, s.feeVault, l, signer, mint, amount, targetMint).Ok?
    ensures var taken := TakeTokens(cfg, s.chain, s.tokens, s.feeVault, l, signer, mint, amount, targetMint).value;
            && taken.0.mints.Keys == l.mints.Keys
            && taken.1 == if Classified(s.tokens, mint) then s.tokens[mint] else NativeInfo(s.chain, mint, targetMint)
  {
    hide MoveTokens, MoveLamports, BurnTokens;
  }

  /** What a source call writes besides the balances: the next nonce, the token's record, and a proof of who
      sent what to whom. */
  ghost predicate Written(cfg: Config, s: State, t: State, signer: Pubkey, recipient: Pubkey, mint: Pubkey, amount: u64,
                          proofNonce: u64, clock: Clock, tokens: map<Pubkey, TokenInfo>) {
    && (signer, proofNonce) !in s.sourceProofs
    && s.nonce < U64_MAX
    && t == s.(nonce := s.nonce + 1, ledger := t.ledger, tokens := tokens,
               sourceProofs := s.sourceProofs[(signer, proofNonce) :=
                 SourceProof(cfg.hash(SourceMessage(signer, recipient, mint, amount, proofNonce)), signer, clock.time)])
  }

  lemma GasRange(cfg: Config, chain: Chain, l: Ledger, signer: Pubkey, gas: u64)
    requires TakeGas(cfg, chain, l, signer, gas).Ok?
    ensures gas > 0 ==> MIN_SOL_BRIDGE_AMOUNT <= gas <= MAX_ADDITIONAL_SOL_GAS
  {
  }

  /** The same for a SOL transfer, which records the SOL mint. */
  lemma SourceSolEffect(cfg: Config, s: State, signer: Pubkey, amount: u64, recipient: Pubkey, proofNonce: u64,
                        clock: Clock)
    requires SourcedSol(cfg, s, signer, amount, recipient, proofNonce, clock).Ok?
    ensures var t := SourcedSol(cfg, s, signer, amount, recipient, proofNonce, clock).value;
            && signer != cfg.handler && amount >= MIN_SOL_BRIDGE_AMOUNT
            && Taken(cfg, s, t.ledger, signer, amount, s.fee, None)
            && Written(cfg, s, t, signer, recipient, cfg.known.sol, amount, proofNonce, clock, s.tokens)
  {
    hide TakeSol, MoveLamports, Lamports, Tokens, Supply;
    var afterFee := MoveLamports(s.ledger, signer, s.feeVault, s.fee).value;
    MoveLamportsEffect(s.ledger, signer, s.feeVault, s.fee);
    TakeSolEffect(cfg, s.chain, afterFee, signer, amount);
    SameBalances(s.ledger, TakeSol(cfg, s.chain, afterFee, signer, amount).value);
  }
}
