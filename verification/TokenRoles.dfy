/** The classification of tokens: who is native where, decided once. */
module TokenRoles {
  import opened Types
  import opened Ledgers
  import opened BridgeSpec
  import opened Effects
  import opened Runs

  /** The mint a token record holds for its own chain. */
  function OwnMint(chain: Chain, info: TokenInfo): Pubkey {
    if chain == Solana then info.solanaMint else info.solayerMint
  }

  /** The mint it holds for the other chain. */
  function OtherMint(chain: Chain, info: TokenInfo): Pubkey {
    if chain == Solana then info.solayerMint else info.solanaMint
  }

  ghost predicate RoleSound(cfg: Config, s: State, mint: Pubkey) {
    && (mint in s.tokens ==>
          && mint in s.ledger.mints
          && s.tokens[mint].solanaNative != s.tokens[mint].solayerNative
          && !s.tokens[mint].paused
          && OwnMint(s.chain, s.tokens[mint]) == mint
          && (NativeHere(s.chain, s.tokens[mint]) <==> !Derived(cfg, mint))
          && (!NativeHere(s.chain, s.tokens[mint]) ==> cfg.derive(OtherMint(s.chain, s.tokens[mint])) == mint))
    && (mint in s.ledger.mints && Derived(cfg, mint) ==> mint in s.tokens)
  }

  lemma SourcedTokenKeepsRoles(cfg: Config, s: State, ix: Instruction, clock: Clock, mint: Pubkey)
    requires ix.SourceToken? && Step(cfg, s, ix, clock).Ok?
    requires RoleSound(cfg, s, mint) && RoleSound(cfg, s, ix.mint)
    ensures var t := Step(cfg, s, ix, clock).value;
            && RoleSound(cfg, t, mint)
            && t.ledger.mints.Keys == s.ledger.mints.Keys
            && (mint in s.tokens ==> mint in t.tokens && t.tokens[mint] == s.tokens[mint])
  {
    hide TakeGas, TakeTokens, MoveLamports, Derived;
    var afterFee := MoveLamports(s.ledger, ix.signer, s.feeVault, s.fee).value;
    var afterGas := TakeGas(cfg, s.chain, afterFee, ix.signer, ix.gas).value;
    TakenRecord(cfg, s, afterGas, ix.signer, ix.mint, ix.amount, ix.targetMint);
  }

  lemma AddedTokenKeepsRoles(cfg: Config, s: State, ix: Instruction, clock: Clock, mint: Pubkey)
    requires ix.AddToken? && Step(cfg, s, ix, clock).Ok?
    requires RoleSound(cfg, s, mint)
    ensures var t := Step(cfg, s, ix, clock).value;
            && RoleSound(cfg, t, mint)
            && (mint in s.tokens ==> mint in t.tokens && t.tokens[mint] == s.tokens[mint])
  {
    assert Derived(cfg, cfg.derive(ix.sourceMint));
  }

  /** Releases and SOL transfers create no mint. */
  lemma OtherStepsKeepMints(cfg: Config, s: State, ix: Instruction, clock: Clock)
    requires !ix.SourceToken? && !ix.AddToken? && Step(cfg, s, ix, clock).Ok?
    ensures var t := Step(cfg, s, ix, clock).value;
            t.tokens == s.tokens && t.chain == s.chain && t.ledger.mints.Keys == s.ledger.mints.Keys
  {
    hide VerifiedBatch, Authorised, SourcedToken, AddedToken, PaySol, TakeSol, MoveLamports, MoveTokens, MintTokens;
    hide AddGuardianTo, RemoveGuardianFrom, UpdatedThreshold, Configured;
    StepFrame(cfg, s, ix, clock);
  }

  lemma StepKeepsRoles(cfg: Config, s: State, ix: Instruction, clock: Clock, mint: Pubkey)
    requires Step(cfg, s, ix, clock).Ok?
    requires RoleSound(cfg, s, mint) && (ix.SourceToken? ==> RoleSound(cfg, s, ix.mint))
    ensures var t := Step(cfg, s, ix, clock).value;
            && RoleSound(cfg, t, mint)
            && (mint in s.tokens ==> mint in t.tokens && t.tokens[mint] == s.tokens[mint])
  {
    hide Step;
    if ix.SourceToken? {
      SourcedTokenKeepsRoles(cfg, s, ix, clock, mint);
    } else if ix.AddToken? {
      AddedTokenKeepsRoles(cfg, s, ix, clock, mint);
    } else {
      OtherStepsKeepMints(cfg, s, ix, clock);
    }
  }

  /** Who writes a record: the first transfer of a token, which makes it native and notes the mint it is to have on
      the other chain, or `add_token`, which makes it foreign and notes the mint it wraps. */
  lemma RecordWritten(cfg: Config, s: State, ix: Instruction, clock: Clock, mint: Pubkey)
    requires Step(cfg, s, ix, clock).Ok? && mint !in s.tokens && mint in Step(cfg, s, ix, clock).value.tokens
    ensures var info := Step(cfg, s, ix, clock).value.tokens[mint];
            && (ix.SourceToken? || ix.AddToken?)
            && OwnMint(s.chain, info) == mint && !info.paused
            && info.solanaNative == (ix.SourceToken? == (s.chain == Solana))
            && info.solayerNative == (ix.SourceToken? == (s.chain == Solayer))
            && (ix.SourceToken? ==> ix.mint == mint && OtherMint(s.chain, info) == ix.targetMint)
            && (ix.AddToken? ==> cfg.derive(ix.sourceMint) == mint && OtherMint(s.chain, info) == ix.sourceMint)
  {
    match ix
    case SourceToken(signer, m, amount, recipient, targetMint, gas, proofNonce) =>
      hide TakeGas, TakeTokens, MoveLamports, SourceDigest;
      var afterFee := MoveLamports(s.ledger, signer, s.feeVault, s.fee).value;
      var afterGas := TakeGas(cfg, s.chain, afterFee, signer, gas).value;
      TakenRecord(cfg, s, afterGas, signer, m, amount, targetMint);
    case AddToken(_, _, _) =>
    case _ => OtherStepsKeepMints(cfg, s, ix, clock);
  }

  ghost predicate RolesHold(cfg: Config, s: State) {
    forall m: Pubkey :: RoleSound(cfg, s, m)
  }

  /** One transaction keeps every role, and leaves existing token records exactly as they are. */
  lemma ActKeepsRoles(cfg: Config, s: State, tx: Tx)
    requires RolesHold(cfg, s)
    ensures RolesHold(cfg, Act(cfg, s, tx))
    ensures forall m :: m in s.tokens ==> m in Act(cfg, s, tx).tokens && Act(cfg, s, tx).tokens[m] == s.tokens[m]
  {
    hide Step;
    forall m: Pubkey
      ensures RoleSound(cfg, Act(cfg, s, tx), m)
      ensures m in s.tokens ==> m in Act(cfg, s, tx).tokens && Act(cfg, s, tx).tokens[m] == s.tokens[m]
    {
      assert RoleSound(cfg, s, m);
      if Succeeds(cfg, s, tx) {
        StepKeepsRoles(cfg, s, tx.action.ix, tx.clock, m);
      }
    }
  }

  /** In every reachable state a token record has exactly one native flag; the token is foreign here exactly
      when its mint is one `add_token` derives; every derived mint that exists has a record; and no token
      is ever paused. */
  lemma {:induction false} RolesSound(cfg: Config, s0: State, txs: seq<Tx>)
    requires IsInitial(cfg, s0)
    ensures RolesHold(cfg, After(cfg, s0, txs))
  {
    hide Act;
    if txs != [] {
      RolesSound(cfg, s0, txs[..|txs| - 1]);
      ActKeepsRoles(cfg, After(cfg, s0, txs[..|txs| - 1]), txs[|txs| - 1]);
    }
  }

  /** A token record never changes after the transaction that writes it. */
  lemma {:induction false} RecordPermanent(cfg: Config, s0: State, txs: seq<Tx>, mint: Pubkey, j: nat, k: nat)
    requires IsInitial(cfg, s0) && j <= k <= |txs| && mint in Before(cfg, s0, txs, j).tokens
    ensures var s, t := Before(cfg, s0, txs, j), Before(cfg, s0, txs, k);
            mint in t.tokens && t.tokens[mint] == s.tokens[mint]
  {
    hide Act, RolesHold;
    if j < k {
      RecordPermanent(cfg, s0, txs, mint, j, k - 1);
      AfterPrefix(cfg, s0, txs, k - 1);
      RolesSound(cfg, s0, txs[..k - 1]);
      ActKeepsRoles(cfg, Before(cfg, s0, txs, k - 1), txs[k - 1]);
    }
  }

  /** The transaction that first transferred a native token noted its mint on the other chain. */
  ghost predicate FirstTransfer(cfg: Config, s: State, tx: Tx, mint: Pubkey, other: Pubkey) {
    && Succeeds(cfg, s, tx) && tx.action.ix.SourceToken?
    && tx.action.ix.mint == mint && tx.action.ix.targetMint == other && mint !in s.tokens
  }

  /** In every reachable state a native record holds the target mint of the transfer that wrote it. */
  lemma {:induction false} NativeRecordOrigin(cfg: Config, s0: State, txs: seq<Tx>, mint: Pubkey)
    requires IsInitial(cfg, s0)
    requires mint in After(cfg, s0, txs).tokens
    requires NativeHere(After(cfg, s0, txs).chain, After(cfg, s0, txs).tokens[mint])
    ensures var s := After(cfg, s0, txs);
            exists k :: 0 <= k < |txs|
              && FirstTransfer(cfg, Before(cfg, s0, txs, k), txs[k], mint, OtherMint(s.chain, s.tokens[mint]))
  {
    hide Act, RolesHold, NativeHere, FirstTransfer;
    assert txs != [];
    var n := |txs| - 1;
    var front, s, t := txs[..n], After(cfg, s0, txs[..n]), After(cfg, s0, txs);
    RolesSound(cfg, s0, front);
    ActKeepsRoles(cfg, s, txs[n]);
    ActKeepsChain(cfg, s, txs[n]);
    if mint in s.tokens {
      NativeRecordOrigin(cfg, s0, front, mint);
      var k :| 0 <= k < n
        && FirstTransfer(cfg, Before(cfg, s0, front, k), front[k], mint, OtherMint(s.chain, s.tokens[mint]));
      assert front[..k] == txs[..k];
      assert FirstTransfer(cfg, Before(cfg, s0, txs, k), txs[k], mint, OtherMint(t.chain, t.tokens[mint]));
    } else {
      ActWritesFirst(cfg, s, txs[n], mint);
      assert FirstTransfer(cfg, Before(cfg, s0, txs, n), txs[n], mint, OtherMint(t.chain, t.tokens[mint]));
    }
  }

  lemma ActWritesFirst(cfg: Config, s: State, tx: Tx, mint: Pubkey)
    requires mint !in s.tokens && mint in Act(cfg, s, tx).tokens && Act(cfg, s, tx).chain == s.chain
    requires NativeHere(s.chain, Act(cfg, s, tx).tokens[mint])
    ensures FirstTransfer(cfg, s, tx, mint, OtherMint(s.chain, Act(cfg, s, tx).tokens[mint]))
  {
    hide Step;
    RecordWritten(cfg, s, tx.action.ix, tx.clock, mint);
  }

  /** The pause check of the source handler never fires: `pause_token` and `unpause_token` report success and
      change nothing. */
  lemma TokenNeverPaused(cfg: Config, s0: State, txs: seq<Tx>, manager: Pubkey, mint: Pubkey, pause: bool, clock: Clock)
    requires IsInitial(cfg, s0)
    ensures var s := After(cfg, s0, txs);
            var r := Step(cfg, s, PauseToken(manager, mint, pause), clock);
            && (mint in s.tokens ==> !s.tokens[mint].paused)
            && (r.Ok? <==> manager == s.manager && mint in s.tokens)
            && (r.Ok? ==> r.value == s)
  {
    RolesSound(cfg, s0, txs);
    assert RoleSound(cfg, After(cfg, s0, txs), mint);
  }
}
