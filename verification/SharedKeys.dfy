/** Why guardian keys must not be shared between the handlers: signed bytes name no chain, so what guardians of
    both handlers sign for one of them is accepted by the other. */
module SharedKeys {
  import opened Types
  import opened Payloads
  import opened Ed25519Codec
  import opened Ledgers
  import opened BridgeSpec
  import opened Runs
  import opened Quorum
  import opened Approval
  import opened Reachability
  import opened Worlds
  import opened Solvency

  // ------------------------------------------------- runs put together

  lemma ReachedMore(net: Net, w0: World, xs: seq<WorldTx>, x: WorldTx)
    ensures Reached(net, w0, xs + [x]) == Next(net, Reached(net, w0, xs), x)
  {
    hide Next;
    assert (xs + [x])[..|xs|] == xs;
  }

  lemma AllTrustedMore(net: Net, w0: World, xs: seq<WorldTx>, x: WorldTx, faulty: set<Pubkey>)
    requires AllTrusted(net, w0, xs, faulty) && Trusted(net, Reached(net, w0, xs), x, faulty)
    ensures AllTrusted(net, w0, xs + [x], faulty)
  {
    hide Trusted, Reached;
    forall k | 0 <= k < |xs + [x]|
      ensures Trusted(net, Reached(net, w0, (xs + [x])[..k]), (xs + [x])[k], faulty)
    {
      assert (xs + [x])[..k] == xs[..k];
      assert xs[..|xs|] == xs;
    }
  }

  lemma {:induction false} RunsJoin(net: Net, w0: World, xs: seq<WorldTx>, ys: seq<WorldTx>, faulty: set<Pubkey>)
    requires AllTrusted(net, w0, xs, faulty) && AllTrusted(net, Reached(net, w0, xs), ys, faulty)
    ensures Reached(net, w0, xs + ys) == Reached(net, Reached(net, w0, xs), ys)
    ensures AllTrusted(net, w0, xs + ys, faulty)
  {
    hide Trusted, Next, AllTrusted;
    if ys == [] {
      assert xs + ys == xs;
    } else {
      var front, y := ys[..|ys| - 1], ys[|ys| - 1];
      TrustedPrefix(net, Reached(net, w0, xs), ys, faulty);
      RunsJoin(net, w0, xs, front, faulty);
      AllTrustedMore(net, w0, xs + front, y, faulty);
      ReachedMore(net, w0, xs + front, y);
      assert xs + ys == (xs + front) + [y];
    }
  }

  /** Calls that neither start nor finish a transfer change only their own chain. */
  lemma NextCall(net: Net, w: World, chain: Chain, tx: Tx, txId: TxId)
    requires tx.action.Call? && !tx.action.ix.SourceToken? && !tx.action.ix.SourceSol? && !tx.action.ix.Release?
    ensures Next(net, w, On(chain, tx, txId)) == With(w, chain, Act(Cfg(net, chain), StateOf(w, chain), tx))
  {
    hide Step, Act;
  }

  // ------------------------------------------- signatures for both handlers

  /** Every guardian of the handler has agreed to the claim, for whichever handler. */
  ghost predicate AllAgreed(w: World, chain: Chain, c: Claim) {
    forall pk :: pk in StateOf(w, chain).guardians ==> (pk, c) in w.claims
  }

  /** An accepted batch carries signatures of its digest by listed guardians only. */
  lemma BundlesListed(s: State, d: Digest, indexes: seq<byte>, previous: Ed25519Ix, clock: Clock)
    requires VerifiedBatch(s, d, indexes, previous, clock).Ok?
    ensures LoadedSignatures(previous.data).Ok?
    ensures var sigs := LoadedSignatures(previous.data).value;
            forall i :: 0 <= i < |sigs| ==> sigs[i].pubkey in s.guardians && sigs[i].msg == d
  {
    hide LoadedSignatures;
    BatchAccepted(s.guardians, OpenIndex(s, d), indexes);
    VerifierExact(previous, CheckBatch(s.guardians, OpenIndex(s, d), indexes).value, d);
  }

  /** Signatures of the claim's digest by guardians that all agreed to it are honest. */
  lemma ListedHonest(net: Net, w: World, chain: Chain, faulty: set<Pubkey>, c: Claim, data: Bytes)
    requires AllAgreed(w, chain, c) && LoadedSignatures(data).Ok?
    requires var sigs := LoadedSignatures(data).value;
             forall i :: 0 <= i < |sigs| ==>
               && sigs[i].pubkey in StateOf(w, chain).guardians
               && sigs[i].msg == Cfg(net, chain).hash(Payload(Cfg(net, chain).known.sol, c))
    ensures HonestSignatures(net, w, chain, faulty, data)
  {
    hide LoadedSignatures, Payload;
  }

  lemma BatchHonest(net: Net, w: World, chain: Chain, faulty: set<Pubkey>, c: Claim, tx: Tx, now: Clock, txId: TxId)
    requires AllAgreed(w, chain, c)
    requires OnlyBatches(net.valid, [tx], Cfg(net, chain).hash(Payload(Cfg(net, chain).known.sol, c)), now)
    ensures Trusted(net, w, On(chain, tx, txId), faulty)
  {
    assert [tx][0] == tx;
    hide PrecompileAccepted, Payload, LoadedSignatures, OnlyBatches, VerifiedBatch, HonestSignatures, AllAgreed;
    var cfg, s, ix := Cfg(net, chain), StateOf(w, chain), tx.action.ix;
    if Succeeds(cfg, s, tx) {
      BundlesListed(s, cfg.hash(Payload(cfg.known.sol, c)), ix.indexes, ix.previous, tx.clock);
      ListedHonest(net, w, chain, faulty, c, ix.previous.data);
    }
  }

  /** The world transactions of a chain's own run. */
  function Lifted(chain: Chain, txs: seq<Tx>, txId: TxId): (xs: seq<WorldTx>)
    ensures |xs| == |txs| && forall k :: 0 <= k < |xs| ==> xs[k] == On(chain, txs[k], txId)
  {
    seq(|txs|, k requires 0 <= k < |txs| => On(chain, txs[k], txId))
  }

  lemma LiftedMore(chain: Chain, txs: seq<Tx>, txId: TxId)
    requires txs != []
    ensures Lifted(chain, txs, txId) == Lifted(chain, txs[..|txs| - 1], txId) + [On(chain, txs[|txs| - 1], txId)]
  {
  }

  lemma WithMore(w: World, chain: Chain, s: State, t: State)
    ensures With(With(w, chain, s), chain, t) == With(w, chain, t)
    ensures StateOf(With(w, chain, s), chain) == s
    ensures StateOf(With(w, chain, s), Other(chain)) == StateOf(w, Other(chain))
    ensures With(w, chain, StateOf(w, chain)) == w
  {
  }

  /** The batches of `txs` move one chain as they would alone, and no assumption is broken. */
  lemma {:induction false} LiftedRun(net: Net, w: World, chain: Chain, faulty: set<Pubkey>, c: Claim, txs: seq<Tx>,
                                     now: Clock, txId: TxId)
    requires AllAgreed(w, chain, c)
    requires OnlyBatches(net.valid, txs, Cfg(net, chain).hash(Payload(Cfg(net, chain).known.sol, c)), now)
    ensures Reached(net, w, Lifted(chain, txs, txId)) == With(w, chain, After(Cfg(net, chain), StateOf(w, chain), txs))
    ensures AllTrusted(net, w, Lifted(chain, txs, txId), faulty)
  {
    hide Next, Act, Trusted, Payload, AllTrusted;
    var cfg, s := Cfg(net, chain), StateOf(w, chain);
    var d := cfg.hash(Payload(cfg.known.sol, c));
    if txs == [] {
      WithMore(w, chain, s, s);
      NothingTrusted(net, w, faulty);
      assert Lifted(chain, txs, txId) == [];
    } else {
      var front, tx := txs[..|txs| - 1], txs[|txs| - 1];
      var xs, t := Lifted(chain, front, txId), After(cfg, s, front);
      LiftedRun(net, w, chain, faulty, c, front, now, txId);
      BatchesOnlyRecord(cfg, net.valid, s, front, d, now);
      WithMore(w, chain, t, After(cfg, s, txs));
      assert [tx][0] == tx;
      BatchHonest(net, With(w, chain, t), chain, faulty, c, tx, now, txId);
      NextCall(net, With(w, chain, t), chain, tx, txId);
      LiftedMore(chain, txs, txId);
      AllTrustedMore(net, w, xs, On(chain, tx, txId), faulty);
      ReachedMore(net, w, xs, On(chain, tx, txId));
    }
  }

  lemma NothingTrusted(net: Net, w: World, faulty: set<Pubkey>)
    ensures AllTrusted(net, w, [], faulty)
  {
  }

  /** Records count for no asset. */
  lemma RecordsKeepSlack(net: Net, a: Asset, w: World, chain: Chain, t: State)
    requires t == StateOf(w, chain).(records := t.records)
    ensures Slack(net, a, With(w, chain, t)) == Slack(net, a, w)
  {
    assert Proofs(With(w, chain, t)) == Proofs(w);
  }

  /** The claim can be paid on the chain, all whose guardians agreed to it and sign it, and no event of it is
      headed there. */
  ghost predicate Astray(net: Net, w: World, chain: Chain, faulty: set<Pubkey>, c: Claim, sign: Signer, now: Clock,
                         later: Clock)
  {
    var cfg, s := Cfg(net, chain), StateOf(w, chain);
    var d := cfg.hash(Payload(cfg.known.sol, c));
    && AllAgreed(w, chain, c) && SignsFor(net.valid, sign, s.guardians, d)
    && Payable(cfg, s, c) && WithinReach(cfg, s, c) && c.recipient != cfg.handler
    && now.time + AWAITING_TIME_SECONDS <= later.time && d !in s.records
    && |faulty * Members(s.guardians)| < s.threshold && NoCollision(cfg, AllClaims(w), c)
    && !HasEvent(net, chain, c, w.events) && TxIdentifies(net, w, chain, c)
  }

  /** The signatures, and then the release. */
  lemma StrayReleased(net: Net, w: World, chain: Chain, faulty: set<Pubkey>, c: Claim, sign: Signer,
                      now: Clock, later: Clock, txId: TxId) returns (txs: seq<Tx>, x: WorldTx)
    requires WorldSound(net, w, faulty) && Astray(net, w, chain, faulty, c, sign, now, later)
    ensures var cfg, s := Cfg(net, chain), StateOf(w, chain);
            && OnlyBatches(net.valid, txs, cfg.hash(Payload(cfg.known.sol, c)), now)
            && x.On? && x.chain == chain && x.tx.action.Call? && x.tx.action.ix.Release? && x.tx.action.ix.claim == c
            && Succeeds(cfg, After(cfg, s, txs), x.tx)
  {
    hide Payload, Pay, WorldSound, OnlyBatches, PrecompileAccepted, Act, Released, HasEvent, TxIdentifies, NoCollision;
    var cfg, s := Cfg(net, chain), StateOf(w, chain);
    var d := cfg.hash(Payload(cfg.known.sol, c));
    SoundChain(net, w, chain, faulty);
    txs := Fill(cfg, net.valid, sign, s, d, s.threshold, now);
    BatchesOnlyRecord(cfg, net.valid, s, txs, d, now);
    var t := After(cfg, s, txs);
    SamePayable(cfg, s, t, c);
    ReleasedLater(cfg, t, c, later);
    x := On(chain, Tx(Call(Release(s.operator, d, c)), later), txId);
  }

  lemma SoundChain(net: Net, w: World, chain: Chain, faulty: set<Pubkey>)
    requires WorldSound(net, w, faulty)
    ensures GuardiansSound(StateOf(w, chain)) && StateOf(w, chain).threshold > 0
  {
    assert chain == Solana || chain == Solayer;
  }

  /** From any reachable world where guardians of a handler agreed to a claim that is headed for the other one, more
      transactions that break no assumption release it on the wrong one, and the slack falls by the payout. */
  lemma StrayClaimPaid(net: Net, a: Asset, w0: World, xs: seq<WorldTx>, chain: Chain, faulty: set<Pubkey>, c: Claim,
                       sign: Signer, now: Clock, later: Clock, txId: TxId) returns (ys: seq<WorldTx>)
    requires AssetSound(net, a) && Genesis(net, w0) && AllTrusted(net, w0, xs, faulty)
    requires Astray(net, Reached(net, w0, xs), chain, faulty, c, sign, now, later)
    ensures AllTrusted(net, w0, xs + ys, faulty)
    ensures Slack(net, a, Reached(net, w0, xs + ys)) == Slack(net, a, Reached(net, w0, xs)) - Out(net, a, chain, c)
  {
    hide Payload, Next, Act, Trusted, AllTrusted, WorldSound, Slack, Out, AssetSound, Genesis, Succeeds, Reached,
        Payable, SignsFor;
    var w := Reached(net, w0, xs);
    ReachedSound(net, w0, xs, faulty);
    var txs, x := StrayReleased(net, w, chain, faulty, c, sign, now, later, txId);
    var cfg, s := Cfg(net, chain), StateOf(w, chain);
    LiftedRun(net, w, chain, faulty, c, txs, now, txId);
    BatchesOnlyRecord(cfg, net.valid, s, txs, cfg.hash(Payload(cfg.known.sol, c)), now);
    var t := After(cfg, s, txs);
    var w' := With(w, chain, t);
    WithMore(w, chain, t, t);
    RecordsKeepSlack(net, a, w, chain, t);
    RunsJoin(net, w0, xs, Lifted(chain, txs, txId), faulty);
    ReachedSound(net, w0, xs + Lifted(chain, txs, txId), faulty);
    StraySlack(net, a, w', x, faulty);
    TrustedRelease(net, w, w', x, faulty);
    AllTrustedMore(net, w0, xs + Lifted(chain, txs, txId), x, faulty);
    ReachedMore(net, w0, xs + Lifted(chain, txs, txId), x);
    ys := Lifted(chain, txs, txId) + [x];
    assert xs + ys == (xs + Lifted(chain, txs, txId)) + [x];
  }

  lemma TrustedRelease(net: Net, w: World, w': World, x: WorldTx, faulty: set<Pubkey>)
    requires x.On? && x.tx.action.Call? && x.tx.action.ix.Release? && w'.claims == w.claims
    requires StateOf(w', x.chain).guardians == StateOf(w, x.chain).guardians
    requires StateOf(w', x.chain).threshold == StateOf(w, x.chain).threshold
    requires |faulty * Members(StateOf(w, x.chain).guardians)| < StateOf(w, x.chain).threshold
    requires NoCollision(Cfg(net, x.chain), AllClaims(w), x.tx.action.ix.claim)
    ensures Trusted(net, w', x, faulty)
  {
    hide Step;
    assert AllClaims(w') == AllClaims(w);
  }

  // ------------------------------------------------ one run from the start

  /** One guardian, listed on both handlers, and a sender of SOL on Solana. */
  datatype Scene = Scene(guardian: Pubkey, sender: Pubkey, recipient: Pubkey, amount: u64, proofNonce: u64, txId: TxId,
                         signature: Bytes64, now: Clock, later: Clock)

  /** The claim the guardian signs, for Solayer. */
  function SceneClaim(z: Scene): Claim {
    SolClaim(z.sender, z.recipient, z.amount, 0, z.txId)
  }

  ghost predicate Staged(net: Net, w0: World, z: Scene) {
    var l := w0.solana.ledger;
    && Genesis(net, w0)
    && net.valid(z.guardian, z.signature, net.solana.hash(Payload(net.solana.known.sol, SceneClaim(z))))
    && z.amount >= MIN_SOL_BRIDGE_AMOUNT
    && z.sender !in {net.solana.handler, w0.solana.feeVault}
    && z.recipient !in {net.solana.handler, w0.solana.feeVault, z.sender} && w0.solana.feeVault != net.solana.handler
    && Lamports(l, z.sender) >= DEFAULT_BRIDGE_FEE + z.amount
    && Lamports(l, w0.solana.feeVault) + DEFAULT_BRIDGE_FEE <= U64_MAX
    && Lamports(l, z.recipient) + z.amount <= U64_MAX
    && net.solana.rent <= Lamports(l, net.solana.handler) <= U64_MAX - z.amount
    && z.now.time + AWAITING_TIME_SECONDS <= z.later.time
  }

  /** List the guardian on both handlers, lock SOL on Solana, and let the guardian agree to the claim for Solayer. */
  function Opening(w0: World, z: Scene): seq<WorldTx> {
    [On(Solana, Tx(Call(AddGuardian(w0.solana.manager, z.guardian)), z.now), z.txId),
     On(Solana, Tx(Call(UpdateThreshold(w0.solana.manager, 1)), z.now), z.txId),
     On(Solayer, Tx(Call(AddGuardian(w0.solayer.manager, z.guardian)), z.now), z.txId),
     On(Solana, Tx(Call(SourceSol(z.sender, z.amount, z.recipient, z.proofNonce)), z.now), z.txId),
     Attest(z.guardian, SceneClaim(z))]
  }

  /** The two handlers once they list the guardian. */
  function Enrolled(w0: World, z: Scene): World {
    w0.(solana := w0.solana.(guardians := [z.guardian], threshold := 1),
        solayer := w0.solayer.(guardians := [z.guardian]))
  }

  lemma Enrolling(net: Net, w0: World, z: Scene)
    requires Genesis(net, w0)
    ensures Reached(net, w0, Opening(w0, z)[..3]) == Enrolled(w0, z)
    ensures AllTrusted(net, w0, Opening(w0, z)[..3], {})
  {
    hide Next, Trusted, Reached, AllTrusted;
    var xs := Opening(w0, z);
    var w1 := w0.(solana := w0.solana.(guardians := [z.guardian]));
    var w2 := w1.(solana := w1.solana.(threshold := 1));
    assert [] + [z.guardian] == [z.guardian];
    QuietStep(net, w0, xs[0], w0.solana.(guardians := [z.guardian]));
    QuietStep(net, w1, xs[1], w2.solana);
    QuietStep(net, w2, xs[2], w2.solayer.(guardians := [z.guardian]));
    StartOfRun(net, w0);
    NothingTrusted(net, w0, {});
    assert [] + [xs[0]] == [xs[0]] && [xs[0]] + [xs[1]] == [xs[0], xs[1]];
    OneMore(net, w0, [], xs[0]);
    OneMore(net, w0, [xs[0]], xs[1]);
    OneMore(net, w0, [xs[0], xs[1]], xs[2]);
    assert xs[..3] == [xs[0], xs[1]] + [xs[2]];
  }

  lemma StartOfRun(net: Net, w0: World)
    ensures Reached(net, w0, []) == w0
  {
  }

  lemma OneMore(net: Net, w0: World, xs: seq<WorldTx>, x: WorldTx)
    requires AllTrusted(net, w0, xs, {}) && Trusted(net, Reached(net, w0, xs), x, {})
    ensures Reached(net, w0, xs + [x]) == Next(net, Reached(net, w0, xs), x)
    ensures AllTrusted(net, w0, xs + [x], {})
  {
    hide Reached, AllTrusted, Trusted, Next;
    ReachedMore(net, w0, xs, x);
    AllTrustedMore(net, w0, xs, x, {});
  }

  /** A change of membership needs no assumption. */
  lemma QuietStep(net: Net, w: World, x: WorldTx, t: State)
    requires x.On? && x.tx.action.Call? && (x.tx.action.ix.AddGuardian? || x.tx.action.ix.UpdateThreshold?)
    requires Step(Cfg(net, x.chain), StateOf(w, x.chain), x.tx.action.ix, x.tx.clock) == Ok(t)
    ensures Next(net, w, x) == With(w, x.chain, t) && Trusted(net, w, x, {})
  {
    hide Step;
    ActOfSuccess(Cfg(net, x.chain), StateOf(w, x.chain), x.tx.action.ix, x.tx.clock, t);
  }

  /** The Solana handler after the transfer: the amount is locked. */
  ghost predicate Locked(net: Net, w0: World, z: Scene, t: State) {
    && t == Enrolled(w0, z).solana.(nonce := 1, ledger := t.ledger, sourceProofs := t.sourceProofs)
    && Lamports(t.ledger, net.solana.handler) == Lamports(w0.solana.ledger, net.solana.handler) + z.amount
    && Lamports(t.ledger, z.recipient) == Lamports(w0.solana.ledger, z.recipient)
  }

  lemma Locking(net: Net, w0: World, z: Scene)
    requires Staged(net, w0, z)
    ensures var r := SourcedSol(net.solana, Enrolled(w0, z).solana, z.sender, z.amount, z.recipient, z.proofNonce,
                                z.now);
            r.Ok? && Locked(net, w0, z, r.value)
  {
    hide Payload;
    var s := Enrolled(w0, z).solana;
    var l, v, h := w0.solana.ledger, w0.solana.feeVault, net.solana.handler;
    var paid := MoveLamports(l, z.sender, v, DEFAULT_BRIDGE_FEE).value;
    MoveLamportsEffect(l, z.sender, v, DEFAULT_BRIDGE_FEE);
    assert MoveLamports(paid, z.sender, h, z.amount).Ok?;
    MoveLamportsEffect(paid, z.sender, h, z.amount);
    hide MoveLamports, Lamports;
  }

  /** The world after the opening: the amount is in flight to Solayer and the guardian agreed to its claim. */
  lemma Opened(net: Net, w0: World, z: Scene)
    requires Staged(net, w0, z)
    ensures AllTrusted(net, w0, Opening(w0, z), {})
    ensures var w := Reached(net, w0, Opening(w0, z));
            && Locked(net, w0, z, w.solana)
            && w.solayer == Enrolled(w0, z).solayer
            && w.events == [SolEvent(Solana, z.sender, z.recipient, z.amount, 0, z.txId)]
            && w.claims == {(z.guardian, SceneClaim(z))} && w.minted == 0
  {
    hide Trusted, Reached, AllTrusted, Payload, Step, SourcedSol, Act;
    var xs, w3 := Opening(w0, z), Enrolled(w0, z);
    Enrolling(net, w0, z);
    Locking(net, w0, z);
    var w4 := Next(net, w3, xs[3]);
    LockedNext(net, w3, xs[3], z);
    LockTrusted(net, w3, xs[3], xs[4]);
    OneMore(net, w0, xs[..3], xs[3]);
    assert xs[..4] == xs[..3] + [xs[3]];
    LockTrusted(net, w4, xs[3], xs[4]);
    OneMore(net, w0, xs[..4], xs[4]);
    assert xs == xs[..4] + [xs[4]];
    AgreedNext(net, w4, z);
  }

  /** A source call and an agreement need no assumption. */
  lemma LockTrusted(net: Net, w: World, lock: WorldTx, agree: WorldTx)
    requires lock.On? && lock.tx.action.Call? && lock.tx.action.ix.SourceSol? && agree.Attest?
    ensures Trusted(net, w, lock, {}) && Trusted(net, w, agree, {})
  {
    hide Step;
  }

  lemma LockedNext(net: Net, w: World, x: WorldTx, z: Scene)
    requires x == On(Solana, Tx(Call(SourceSol(z.sender, z.amount, z.recipient, z.proofNonce)), z.now), z.txId)
    requires w.solana.chain == Solana && w.solana.nonce == 0
    requires SourcedSol(net.solana, w.solana, z.sender, z.amount, z.recipient, z.proofNonce, z.now).Ok?
    ensures var t := SourcedSol(net.solana, w.solana, z.sender, z.amount, z.recipient, z.proofNonce, z.now).value;
            Next(net, w, x) == w.(solana := t,
                                  events := w.events + [SolEvent(Solana, z.sender, z.recipient, z.amount, 0, z.txId)])
  {
    hide SourcedSol;
  }

  lemma AgreedNext(net: Net, w: World, z: Scene)
    requires z.guardian in w.solayer.guardians
    requires w.events == [SolEvent(Solana, z.sender, z.recipient, z.amount, 0, z.txId)]
    ensures Next(net, w, Attest(z.guardian, SceneClaim(z))) == w.(claims := w.claims + {(z.guardian, SceneClaim(z))})
  {
    assert Truthful(net, Solayer, SceneClaim(z), w.events[0]);
    assert HasEvent(net, Solayer, SceneClaim(z), w.events);
    assert z.guardian in StateOf(w, Solayer).guardians;
    assert MayAgree(net, w, z.guardian, SceneClaim(z));
  }

  lemma OpeningAstray(net: Net, w0: World, z: Scene)
    requires Staged(net, w0, z)
    ensures Astray(net, Reached(net, w0, Opening(w0, z)), Solana, {}, SceneClaim(z), pk => z.signature, z.now, z.later)
  {
    hide Payload, Reached, Opening, AllTrusted, MoveLamports;
    var w, c := Reached(net, w0, Opening(w0, z)), SceneClaim(z);
    Opened(net, w0, z);
    var d := net.solana.hash(Payload(net.solana.known.sol, c));
    assert AllClaims(w) == {c} by {
      assert (z.guardian, c).1 == c;
    }
    assert {} * Members(w.solana.guardians) == {};
    assert Payable(net.solana, w.solana, c);
  }

  /** So SOL solvency does need keys for one handler each: with a guardian on both, a run that breaks no other
      assumption ends with the Solana handler short of what it owes. */
  lemma SharedKeyBreaksSolvency(net: Net, w0: World, z: Scene) returns (xs: seq<WorldTx>)
    requires Staged(net, w0, z)
    ensures AllTrusted(net, w0, xs, {})
    ensures var w := Reached(net, w0, xs);
            Lamports(w.solana.ledger, net.solana.handler) - Lamports(w0.solana.ledger, net.solana.handler)
            < w.minted + InFlight(net, Sol, w.events, Proofs(w))
  {
    var w, c := Reached(net, w0, Opening(w0, z)), SceneClaim(z);
    Opened(net, w0, z);
    OpeningAstray(net, w0, z);
    OpeningSlack(net, w, Lamports(w0.solana.ledger, net.solana.handler), z);
    hide Opening, Reached, AllTrusted, Astray, Staged;
    assert Genesis(net, w0) by { StagedGenesis(net, w0, z); }
    var ys := StrayClaimPaid(net, Sol, w0, Opening(w0, z), Solana, {}, c, pk => z.signature, z.now, z.later, z.txId);
    xs := Opening(w0, z) + ys;
  }

  lemma StagedGenesis(net: Net, w0: World, z: Scene)
    requires Staged(net, w0, z)
    ensures Genesis(net, w0) && z.amount > 0
  {
  }

  lemma OpeningSlack(net: Net, w: World, before: int, z: Scene)
    requires w.events == [SolEvent(Solana, z.sender, z.recipient, z.amount, 0, z.txId)] && w.minted == 0
    requires Lamports(w.solana.ledger, net.solana.handler) == before + z.amount && w.solayer.proofs == map[]
    ensures Slack(net, Sol, w) == before
  {
    var e := SolEvent(Solana, z.sender, z.recipient, z.amount, 0, z.txId);
    InFlightAppend(net, Sol, [], e, Proofs(w));
    assert [] + [e] == w.events;
  }
}
