/** Runs of one chain: instructions of the bridge program, interleaved with everything else that
    happens on the chain. */
module Runs {
  import opened Types
  import opened Ledgers
  import opened BridgeSpec

  /** Either a call of the program, or other programs' work on the balances. */
  datatype Action = Call(ix: Instruction) | Outside(ledger: Ledger)

  datatype Tx = Tx(action: Action, clock: Clock)

  /** An address that `add_token` gives to a wrapped mint. */
  ghost predicate Derived(cfg: Config, mint: Pubkey) {
    exists source: Pubkey :: cfg.derive(source) == mint
  }

  /** What the runtime lets other programs do: they may pay the handler but not debit it, they may burn
      wrapped tokens but not mint them, and they cannot create a mint at a derived address. */
  ghost predicate OutsideAllowed(cfg: Config, before: Ledger, after: Ledger) {
    && Lamports(before, cfg.handler) <= Lamports(after, cfg.handler)
    && (forall m: Pubkey :: Tokens(before, cfg.handler, m) <= Tokens(after, cfg.handler, m))
    && (forall m :: m in before.mints ==> m in after.mints && after.mints[m].decimals == before.mints[m].decimals)
    && (forall m: Pubkey :: Derived(cfg, m) ==> Supply(after, m) <= Supply(before, m))
    && (forall m :: m in after.mints && m !in before.mints ==> !Derived(cfg, m))
  }

  /** A failed call and a forbidden outside step leave the state as it was. */
  ghost function Act(cfg: Config, s: State, tx: Tx): State {
    match tx.action
    case Call(ix) =>
      (match Step(cfg, s, ix, tx.clock)
       case Ok(next) => next
       case Err(_) => s)
    case Outside(ledger) =>
      if OutsideAllowed(cfg, s.ledger, ledger) then s.(ledger := ledger) else s
  }

  ghost predicate Succeeds(cfg: Config, s: State, tx: Tx) {
    tx.action.Call? && Step(cfg, s, tx.action.ix, tx.clock).Ok?
  }

  /** A successful `verify_signature` for digest `d`. */
  ghost predicate Records(cfg: Config, s: State, tx: Tx, d: Digest) {
    Succeeds(cfg, s, tx) && tx.action.ix.VerifySignature? && tx.action.ix.msgHash == d
  }

  ghost function After(cfg: Config, s0: State, txs: seq<Tx>): State {
    if txs == [] then s0 else Act(cfg, After(cfg, s0, txs[..|txs| - 1]), txs[|txs| - 1])
  }

  /** The state in which transaction `k` of a run executes. */
  ghost function Before(cfg: Config, s0: State, txs: seq<Tx>, k: nat): State
    requires k <= |txs|
  {
    After(cfg, s0, txs[..k])
  }

  lemma AfterPrefix(cfg: Config, s0: State, txs: seq<Tx>, k: nat)
    requires k < |txs|
    ensures Before(cfg, s0, txs, k + 1) == Act(cfg, Before(cfg, s0, txs, k), txs[k])
  {
    assert txs[..k + 1][..k] == txs[..k];
  }

  lemma AfterMore(cfg: Config, s0: State, txs: seq<Tx>, tx: Tx)
    ensures After(cfg, s0, txs + [tx]) == Act(cfg, After(cfg, s0, txs), tx)
  {
    hide Act;
    assert (txs + [tx])[..|txs|] == txs;
  }

  lemma ActOfSuccess(cfg: Config, s: State, ix: Instruction, clock: Clock, t: State)
    requires Step(cfg, s, ix, clock) == Ok(t)
    ensures Act(cfg, s, Tx(Call(ix), clock)) == t
  {
    hide Step;
  }

  /** The parts of the state each instruction may change. */
  ghost predicate Framed(s: State, ix: Instruction, t: State) {
    match ix
    case AddGuardian(_, _) => t == s.(guardians := t.guardians)
    case RemoveGuardian(_, _) => t == s.(guardians := t.guardians)
    case UpdateThreshold(_, _) => t == s.(threshold := t.threshold)
    case Configure(_, _) =>
      t == s.(pause := t.pause, feeVault := t.feeVault, manager := t.manager, operator := t.operator, cap := t.cap,
              fee := t.fee)
    case PauseToken(_, _, _) => t == s
    case AddToken(_, _, _) => t == s.(ledger := t.ledger, tokens := t.tokens)
    case VerifySignature(_, _, _) => t == s.(records := t.records)
    case SourceToken(_, _, _, _, _, _, _) =>
      t == s.(nonce := t.nonce, sourceProofs := t.sourceProofs, tokens := t.tokens, ledger := t.ledger)
    case SourceSol(_, _, _, _) => t == s.(nonce := t.nonce, sourceProofs := t.sourceProofs, ledger := t.ledger)
    case Release(_, _, _) => t == s.(cap := t.cap, records := t.records, proofs := t.proofs, ledger := t.ledger)
  }

  lemma StepFrame(cfg: Config, s: State, ix: Instruction, clock: Clock)
    requires Step(cfg, s, ix, clock).Ok?
    ensures Framed(s, ix, Step(cfg, s, ix, clock).value)
  {
    hide Released, SourcedToken, SourcedSol, AddedToken, VerifiedBatch;
    hide AddGuardianTo, RemoveGuardianFrom, UpdatedThreshold, Configured;
  }

  lemma ActKeepsChain(cfg: Config, s: State, tx: Tx)
    ensures Act(cfg, s, tx).chain == s.chain
  {
    hide Step;
    if Succeeds(cfg, s, tx) {
      StepFrame(cfg, s, tx.action.ix, tx.clock);
    }
  }

  /** The state `initialize` leaves: nothing wrapped exists yet. */
  ghost predicate IsInitial(cfg: Config, s: State) {
    && (exists chain: Chain, feeVault: Pubkey, manager: Pubkey, operator: Pubkey, clock: Clock ::
          s == Initial(chain, feeVault, manager, operator, clock, s.ledger))
    && forall m :: m in s.ledger.mints ==> !Derived(cfg, m)
  }
}
