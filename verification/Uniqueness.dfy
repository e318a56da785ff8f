/** What a handler does at most once: release a source transaction, number a transfer, issue a proof. */
module Uniqueness {
  import opened Types
  import opened Payloads
  import opened BridgeSpec
  import opened Runs

  /** A proof account exists for good once a release created it. */
  lemma StepKeepsProofs(cfg: Config, s: State, ix: Instruction, clock: Clock)
    requires Step(cfg, s, ix, clock).Ok?
    ensures var t := Step(cfg, s, ix, clock).value;
            && s.proofs.Keys <= t.proofs.Keys
            && s.sourceProofs.Keys <= t.sourceProofs.Keys
            && (ix.Release? ==> cfg.hash(ix.claim.txId) !in s.proofs && cfg.hash(ix.claim.txId) in t.proofs)
            && (ix.SourceToken? || ix.SourceSol? ==>
                  && (ix.signer, ix.proofNonce) !in s.sourceProofs
                  && (ix.signer, ix.proofNonce) in t.sourceProofs
                  && t.nonce == s.nonce + 1)
            && (!ix.SourceToken? && !ix.SourceSol? ==> t.nonce == s.nonce)
  {
    hide AddedToken, VerifiedBatch, TakeGas, TakeTokens, TakeSol, Pay, ChargedCap, SourceDigest;
    hide AddGuardianTo, RemoveGuardianFrom, UpdatedThreshold, Configured, CheckApproval, CheckGasAndHash;
    if !ix.SourceToken? && !ix.SourceSol? && !ix.Release? {
      StepFrame(cfg, s, ix, clock);
    }
  }

  lemma ActKeepsProofs(cfg: Config, s: State, tx: Tx)
    ensures s.proofs.Keys <= Act(cfg, s, tx).proofs.Keys
    ensures s.sourceProofs.Keys <= Act(cfg, s, tx).sourceProofs.Keys
  {
    hide Step;
    if Succeeds(cfg, s, tx) {
      StepKeepsProofs(cfg, s, tx.action.ix, tx.clock);
    }
  }

  ghost predicate ReleasesTx(cfg: Config, s: State, tx: Tx, txId: TxId) {
    Succeeds(cfg, s, tx) && tx.action.ix.Release? && tx.action.ix.claim.txId == txId
  }

  /** How often a run pays out a source transaction, by either target instruction. */
  ghost function Payouts(cfg: Config, s0: State, txs: seq<Tx>, txId: TxId): nat {
    if txs == [] then 0
    else
      var front := txs[..|txs| - 1];
      Payouts(cfg, s0, front, txId) + if ReleasesTx(cfg, After(cfg, s0, front), txs[|txs| - 1], txId) then 1 else 0
  }

  /** Over any run a source transaction is paid out at most once on a handler, whatever is signed or recorded
      again in between, and a payout leaves its proof for good. */
  lemma {:induction false} PaidAtMostOnce(cfg: Config, s0: State, txs: seq<Tx>, txId: TxId)
    ensures Payouts(cfg, s0, txs, txId) <= 1
    ensures Payouts(cfg, s0, txs, txId) == 1 ==> cfg.hash(txId) in After(cfg, s0, txs).proofs
  {
    hide Step;
    if txs != [] {
      var front, tx := txs[..|txs| - 1], txs[|txs| - 1];
      var s := After(cfg, s0, front);
      PaidAtMostOnce(cfg, s0, front, txId);
      ActKeepsProofs(cfg, s, tx);
      if Succeeds(cfg, s, tx) {
        StepKeepsProofs(cfg, s, tx.action.ix, tx.clock);
      }
    }
  }

  /** The record may be rebuilt after a release, but the proof it left still refuses a second one. */
  lemma ReleasedTxStaysRefused(cfg: Config, s0: State, txs: seq<Tx>, operator: Pubkey, d: Digest, c: Claim,
                               clock: Clock)
    requires Payouts(cfg, s0, txs, c.txId) > 0
    ensures Released(cfg, After(cfg, s0, txs), operator, d, c, clock).Err?
  {
    PaidAtMostOnce(cfg, s0, txs, c.txId);
    hide Pay, ChargedCap, CheckApproval, CheckGasAndHash, Act, Payouts;
  }

  ghost predicate IsSourceCall(cfg: Config, s: State, tx: Tx) {
    Succeeds(cfg, s, tx) && (tx.action.ix.SourceToken? || tx.action.ix.SourceSol?)
  }

  /** Successful calls of either source handler. */
  ghost function SourceCalls(cfg: Config, s0: State, txs: seq<Tx>): nat {
    if txs == [] then 0
    else
      var front := txs[..|txs| - 1];
      SourceCalls(cfg, s0, front) + if IsSourceCall(cfg, After(cfg, s0, front), txs[|txs| - 1]) then 1 else 0
  }

  /** The handler's nonce, which the next successful source call returns, is the number of calls so far. */
  lemma {:induction false} NonceCountsCalls(cfg: Config, s0: State, txs: seq<Tx>)
    requires IsInitial(cfg, s0)
    ensures After(cfg, s0, txs).nonce == SourceCalls(cfg, s0, txs)
  {
    if txs != [] {
      var front, tx := txs[..|txs| - 1], txs[|txs| - 1];
      NonceCountsCalls(cfg, s0, front);
      var s := After(cfg, s0, front);
      if Succeeds(cfg, s, tx) {
        StepKeepsProofs(cfg, s, tx.action.ix, tx.clock);
      }
      hide Step;
    }
  }

  /** How often a run's successful source calls use a signer's proof nonce. */
  ghost function Uses(cfg: Config, s0: State, txs: seq<Tx>, signer: Pubkey, proofNonce: u64): nat {
    if txs == [] then 0
    else
      var front, tx := txs[..|txs| - 1], txs[|txs| - 1];
      Uses(cfg, s0, front, signer, proofNonce)
      + if IsSourceCall(cfg, After(cfg, s0, front), tx)
           && tx.action.ix.signer == signer && tx.action.ix.proofNonce == proofNonce
        then 1 else 0
  }

  /** No two successful source calls share a signer and proof nonce. */
  lemma {:induction false} SourcePairUsedOnce(cfg: Config, s0: State, txs: seq<Tx>, signer: Pubkey, proofNonce: u64)
    ensures Uses(cfg, s0, txs, signer, proofNonce) <= 1
    ensures Uses(cfg, s0, txs, signer, proofNonce) == 1 ==> (signer, proofNonce) in After(cfg, s0, txs).sourceProofs
  {
    hide Step;
    if txs != [] {
      var front, tx := txs[..|txs| - 1], txs[|txs| - 1];
      var s := After(cfg, s0, front);
      SourcePairUsedOnce(cfg, s0, front, signer, proofNonce);
      ActKeepsProofs(cfg, s, tx);
      if Succeeds(cfg, s, tx) {
        StepKeepsProofs(cfg, s, tx.action.ix, tx.clock);
      }
    }
  }
}
