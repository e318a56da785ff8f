/** What the guardians can bring about: the claims that enough signatures can release. */
module Reachability {
  import opened Types
  import opened Payloads
  import opened Ed25519Codec
  import opened Precompile
  import opened BridgeSpec
  import opened Runs
  import opened Quorum
  import opened Approval
  import opened Batches

  /** Guardian signatures of one digest. */
  type Signer = Pubkey -> Bytes64

  /** Calls of `verify_signature` for `d` at one time, behind Ed25519 instructions that passed. */
  ghost predicate OnlyBatches(valid: Oracle, txs: seq<Tx>, d: Digest, now: Clock) {
    forall k :: 0 <= k < |txs| ==>
      && txs[k].action.Call? && txs[k].action.ix.VerifySignature? && txs[k].action.ix.msgHash == d
      && txs[k].clock == now && PrecompileAccepted(valid, txs[k])
  }

  /** Batches change one record and never shorten it. */
  lemma {:induction false} BatchesOnlyRecord(cfg: Config, valid: Oracle, s: State, txs: seq<Tx>, d: Digest, now: Clock)
    requires OnlyBatches(valid, txs, d, now)
    ensures var t := After(cfg, s, txs);
            && t == s.(records := t.records)
            && |OpenIndex(s, d)| <= |OpenIndex(t, d)|
            && (d in s.records ==> d in t.records)
            && (t.records == s.records || (d in t.records && t.records[d].createdAt == now.time))
  {
    hide VerifiedBatch, PrecompileAccepted;
    if txs != [] {
      BatchesOnlyRecord(cfg, valid, s, txs[..|txs| - 1], d, now);
    }
  }

  /** Fewer indexes than guardians leave a guardian free. */
  lemma {:induction false} FreeIndex(open: seq<byte>, n: nat) returns (i: nat)
    requires |open| < n
    ensures i < n && i !in open
  {
    if n - 1 in open {
      var p :| 0 <= p < |open| && open[p] == n - 1;
      var rest := open[..p] + open[p + 1..];
      i := FreeIndex(rest, n - 1);
      forall q | 0 <= q < |open| && q != p
        ensures open[q] in rest
      {
        assert open[q] == rest[if q < p then q else q - 1];
      }
    } else {
      i := n - 1;
    }
  }

  /** The transaction in which guardian `i` alone signs, with the instruction data the scripts build. */
  function OneSignature(s: State, d: Digest, i: byte, sign: Signer, now: Clock): Tx
    requires i < |s.guardians|
  {
    var data := PackedData([Bundle(s.guardians[i], sign(s.guardians[i]), d)], OWN_DATA);
    Tx(Call(VerifySignature(d, [i], Ed25519Ix(true, 0, data))), now)
  }

  /** It passes the Ed25519 program and decodes to that one signature. */
  lemma OneSignatureCarries(valid: Oracle, s: State, d: Digest, i: byte, sign: Signer, now: Clock)
    requires i < |s.guardians| && valid(s.guardians[i], sign(s.guardians[i]), d)
    ensures var tx := OneSignature(s, d, i, sign, now);
            && Carries(tx.action.ix.previous, [Bundle(s.guardians[i], sign(s.guardians[i]), d)])
            && PrecompileAccepted(valid, tx)
  {
    hide PackedData, LoadedSignatures, ProgramPasses, OwnFields, OwnFieldsCover, Decodable;
    var sigs := [Bundle(s.guardians[i], sign(s.guardians[i]), d)];
    PackedRoundTrip(sigs, OWN_DATA);
    PackedPasses(valid, sigs, []);
    DecoderExact(PackedData(sigs, OWN_DATA));
    OwnFieldsDoCover(PackedData(sigs, OWN_DATA));
  }

  ghost predicate SignsFor(valid: Oracle, sign: Signer, guardians: seq<Pubkey>, d: Digest) {
    forall pk :: pk in guardians ==> valid(pk, sign(pk), d)
  }

  /** A free guardian's signature is accepted and recorded. */
  lemma OneSignatureRecorded(cfg: Config, valid: Oracle, sign: Signer, s: State, d: Digest, i: byte, now: Clock)
    requires i < |s.guardians| && valid(s.guardians[i], sign(s.guardians[i]), d)
    requires i !in OpenIndex(s, d)
    requires |OpenIndex(s, d)| < |s.guardians| && |OpenIndex(s, d)| < MAX_GUARDIAN_SIGNATURES
    ensures var tx := OneSignature(s, d, i, sign, now);
            && OnlyBatches(valid, [tx], d, now)
            && Step(cfg, s, tx.action.ix, now)
               == Ok(s.(records := s.records[d := Record(OpenIndex(s, d) + [i], now.time)]))
  {
    hide PackedData, LoadedSignatures, VerifiedBatch, PrecompileAccepted;
    var tx := OneSignature(s, d, i, sign, now);
    OneSignatureCarries(valid, s, d, i, sign, now);
    BatchVerified(s, d, [i], tx.action.ix.previous, [Bundle(s.guardians[i], sign(s.guardians[i]), d)], now);
  }

  /** One free guardian at a time, a record can be brought to any size within the limits. */
  lemma {:induction false} Fill(cfg: Config, valid: Oracle, sign: Signer, s: State, d: Digest, n: nat, now: Clock)
    returns (txs: seq<Tx>)
    requires SignsFor(valid, sign, s.guardians, d)
    requires |OpenIndex(s, d)| <= n <= |s.guardians| <= MAX_GUARDIAN_COUNT && n <= MAX_GUARDIAN_SIGNATURES
    ensures OnlyBatches(valid, txs, d, now)
    ensures |OpenIndex(After(cfg, s, txs), d)| == n
    decreases n
  {
    hide PrecompileAccepted, Step, OneSignature;
    if |OpenIndex(s, d)| == n {
      txs := [];
    } else {
      var front := Fill(cfg, valid, sign, s, d, n - 1, now);
      var t := After(cfg, s, front);
      BatchesOnlyRecord(cfg, valid, s, front, d, now);
      var i := FreeIndex(OpenIndex(t, d), |t.guardians|);
      assert t.guardians[i] in s.guardians;
      OneSignatureRecorded(cfg, valid, sign, t, d, i, now);
      var tx := OneSignature(t, d, i, sign, now);
      txs := front + [tx];
      assert txs[..|txs| - 1] == front;
      assert [tx][0] == tx;
    }
  }

  /** Everything a release of `c` needs besides the guardians. */
  predicate Payable(cfg: Config, s: State, c: Claim) {
    && !s.pause && cfg.hash(c.txId) !in s.proofs
    && (c.TokenClaim? ==> c.mint in s.tokens && c.mint in s.ledger.mints && c.gas <= MAX_ADDITIONAL_SOL_GAS)
    && Pay(cfg, s, c).Ok?
  }

  lemma SamePayable(cfg: Config, s: State, t: State, c: Claim)
    requires t == s.(records := t.records, guardians := t.guardians)
    ensures Payable(cfg, t, c) <==> Payable(cfg, s, c)
  {
    hide PayTokens, PaySol;
  }

  /** The record of `c` holds few enough indexes, and the threshold asks for no more than a record can hold. */
  predicate WithinReach(cfg: Config, s: State, c: Claim) {
    var open := OpenIndex(s, cfg.hash(Payload(cfg.known.sol, c)));
    && s.threshold <= MAX_GUARDIAN_SIGNATURES
    && |open| <= MAX_GUARDIAN_SIGNATURES && |open| <= |s.guardians|
  }

  /** Release, once the wait is over: the cap can no longer refuse. */
  lemma ReleasedLater(cfg: Config, s: State, c: Claim, later: Clock)
    requires var d := cfg.hash(Payload(cfg.known.sol, c));
             d in s.records ==> s.records[d].createdAt + AWAITING_TIME_SECONDS <= later.time
    ensures var d := cfg.hash(Payload(cfg.known.sol, c));
            Released(cfg, s, s.operator, d, c, later).Ok? <==>
              Payable(cfg, s, c) && d in s.records && CheckApproval(s, s.records[d]).Ok?
  {
    hide Payload, Pay, MeasuredDollars, CheckApproval;
  }

  /** The guardians can get `c` released. */
  ghost predicate Releasable(cfg: Config, valid: Oracle, s: State, c: Claim, now: Clock, later: Clock) {
    var d := cfg.hash(Payload(cfg.known.sol, c));
    exists txs :: OnlyBatches(valid, txs, d, now) && Released(cfg, After(cfg, s, txs), s.operator, d, c, later).Ok?
  }

  /** Reachability: from any sound state guardians who all sign can bring a claim to its release, six hours on,
      exactly when it can be paid and the threshold is at most 10. So at a threshold of 11 to 15, which
      `update_guardian_threshold` accepts, or while it is unset, no claim can ever be released. */
  lemma ReleasableExactly(cfg: Config, valid: Oracle, sign: Signer, s: State, c: Claim, now: Clock, later: Clock)
    requires GuardiansSound(s) && s.threshold > 0
    requires SignsFor(valid, sign, s.guardians, cfg.hash(Payload(cfg.known.sol, c)))
    requires now.time + AWAITING_TIME_SECONDS <= later.time
    requires var d := cfg.hash(Payload(cfg.known.sol, c));
             d in s.records ==> s.records[d].createdAt + AWAITING_TIME_SECONDS <= later.time
    ensures Releasable(cfg, valid, s, c, now, later) <==> Payable(cfg, s, c) && WithinReach(cfg, s, c)
  {
    hide Payload, Pay, Released, OnlyBatches;
    var d := cfg.hash(Payload(cfg.known.sol, c));
    if Releasable(cfg, valid, s, c, now, later) {
      var txs :| OnlyBatches(valid, txs, d, now) && Released(cfg, After(cfg, s, txs), s.operator, d, c, later).Ok?;
      BatchesOnlyRecord(cfg, valid, s, txs, d, now);
      ReleasedLater(cfg, After(cfg, s, txs), c, later);
      SamePayable(cfg, s, After(cfg, s, txs), c);
    }
    if Payable(cfg, s, c) && WithinReach(cfg, s, c) {
      var open := |OpenIndex(s, d)|;
      var txs := Fill(cfg, valid, sign, s, d, if open < s.threshold then s.threshold else open, now);
      BatchesOnlyRecord(cfg, valid, s, txs, d, now);
      ReleasedLater(cfg, After(cfg, s, txs), c, later);
      SamePayable(cfg, s, After(cfg, s, txs), c);
    }
  }

  // ------------------------------------------ what a harmful removal allows

  /** Guardian `p + 1` signs, guardian `p` is removed, and the first one signs again from the place it moved to. */
  function TwiceFrom(s: State, d: Digest, p: nat, sign: Signer, now: Clock): seq<Tx>
    requires p + 1 < |s.guardians| <= MAX_GUARDIAN_COUNT
  {
    var moved := s.(guardians := s.guardians[..p] + s.guardians[p + 1..]);
    [OneSignature(s, d, p + 1, sign, now),
     Tx(Call(RemoveGuardian(s.manager, s.guardians[p])), now),
     OneSignature(moved, d, p, sign, now)]
  }

  /** The removal, once guardian `p + 1` has signed. */
  lemma RemovalShifts(cfg: Config, s: State, d: Digest, p: nat, now: Clock)
    requires GuardiansSound(s) && s.threshold == 2 && 3 <= |s.guardians| && p + 1 < |s.guardians|
    ensures Step(cfg, s, RemoveGuardian(s.manager, s.guardians[p]), now)
            == Ok(s.(guardians := s.guardians[..p] + s.guardians[p + 1..]))
  {
    WithoutOne(s.guardians, s.guardians[p], p);
  }

  /** Where those three transactions lead: two recorded places, both of the same guardian. */
  lemma TwiceRecorded(cfg: Config, valid: Oracle, sign: Signer, s: State, d: Digest, p: nat, now: Clock)
    requires GuardiansSound(s) && s.threshold == 2 && 3 <= |s.guardians| && p + 1 < |s.guardians|
    requires d !in s.records && valid(s.guardians[p + 1], sign(s.guardians[p + 1]), d)
    ensures forall tx :: tx in TwiceFrom(s, d, p, sign, now) ==> PrecompileAccepted(valid, tx)
    ensures After(cfg, s, TwiceFrom(s, d, p, sign, now))
            == s.(guardians := s.guardians[..p] + s.guardians[p + 1..],
                  records := s.records[d := Record([p + 1, p], now.time)])
  {
    hide PrecompileAccepted, OneSignature, Step, Act, After, NoDups;
    var txs := TwiceFrom(s, d, p, sign, now);
    var left := s.guardians[..p] + s.guardians[p + 1..];
    var s1 := s.(records := s.records[d := Record([p + 1], now.time)]);
    var s2 := s1.(guardians := left);
    OneSignatureRecorded(cfg, valid, sign, s, d, p + 1, now);
    assert OpenIndex(s, d) + [p + 1] == [p + 1];
    RemovalShifts(cfg, s1, d, p, now);
    assert s2.guardians[p] == s.guardians[p + 1];
    SameSignature(s.(guardians := left), s2, d, p, sign, now);
    OneSignatureRecorded(cfg, valid, sign, s2, d, p, now);
    assert [p + 1] + [p] == [p + 1, p];
    var s3 := s2.(records := s2.records[d := Record([p + 1, p], now.time)]);
    assert s2.records[d := Record([p + 1, p], now.time)] == s.records[d := Record([p + 1, p], now.time)];
    NoBatchAccepted(valid, txs[1]);
    assert [txs[0]][0] == txs[0] && [txs[2]][0] == txs[2];
    ThreeSteps(cfg, s, txs, s1, s2, s3);
  }

  lemma NoBatchAccepted(valid: Oracle, tx: Tx)
    requires tx.action.Call? && !tx.action.ix.VerifySignature?
    ensures PrecompileAccepted(valid, tx)
  {
  }

  lemma ThreeSteps(cfg: Config, s: State, txs: seq<Tx>, s1: State, s2: State, s3: State)
    requires |txs| == 3 && txs[0].action.Call? && txs[1].action.Call? && txs[2].action.Call?
    requires Step(cfg, s, txs[0].action.ix, txs[0].clock) == Ok(s1)
    requires Step(cfg, s1, txs[1].action.ix, txs[1].clock) == Ok(s2)
    requires Step(cfg, s2, txs[2].action.ix, txs[2].clock) == Ok(s3)
    ensures After(cfg, s, txs) == s3
  {
    hide Step, Act;
    ActOfSuccess(cfg, s, txs[0].action.ix, txs[0].clock, s1);
    ActOfSuccess(cfg, s1, txs[1].action.ix, txs[1].clock, s2);
    ActOfSuccess(cfg, s2, txs[2].action.ix, txs[2].clock, s3);
    AfterMore(cfg, s, [], txs[0]);
    AfterMore(cfg, s, [txs[0]], txs[1]);
    AfterMore(cfg, s, [txs[0], txs[1]], txs[2]);
    assert [] + [txs[0]] == [txs[0]] && [txs[0]] + [txs[1]] == [txs[0], txs[1]];
    assert txs == [txs[0], txs[1]] + [txs[2]];
  }

  /** Only one guardian's signature is ever presented in them. */
  lemma TwicePresentsOne(cfg: Config, valid: Oracle, sign: Signer, s: State, d: Digest, p: nat, now: Clock, pk: Pubkey)
    requires GuardiansSound(s) && p + 1 < |s.guardians| && valid(s.guardians[p + 1], sign(s.guardians[p + 1]), d)
    ensures Presented(cfg, valid, s, TwiceFrom(s, d, p, sign, now), pk, d) ==> pk == s.guardians[p + 1]
  {
    hide Succeeds, Before, PackedData, LoadedSignatures, PrecompileAccepted;
    var txs := TwiceFrom(s, d, p, sign, now);
    var moved := s.(guardians := s.guardians[..p] + s.guardians[p + 1..]);
    assert moved.guardians[p] == s.guardians[p + 1];
    OneSignatureCarries(valid, s, d, p + 1, sign, now);
    OneSignatureCarries(valid, moved, d, p, sign, now);
    if Presented(cfg, valid, s, txs, pk, d) {
      var k :| 0 <= k < |txs| && Succeeds(cfg, Before(cfg, s, txs, k), txs[k]) && PresentedIn(valid, txs[k], pk, d);
    }
  }

  /** The payout: at threshold 2, from any sound state, that run gets a claim released six hours on, although a
      single guardian presented its signature. `RemovalExact` tells these removals from the harmless ones. */
  lemma ShiftedGuardianReleasesAlone(cfg: Config, valid: Oracle, sign: Signer, s: State, c: Claim, p: nat,
                                     now: Clock, later: Clock)
    requires GuardiansSound(s) && s.threshold == 2 && 3 <= |s.guardians| && p + 1 < |s.guardians|
    requires Payable(cfg, s, c) && now.time + AWAITING_TIME_SECONDS <= later.time
    requires var d := cfg.hash(Payload(cfg.known.sol, c));
             d !in s.records && valid(s.guardians[p + 1], sign(s.guardians[p + 1]), d)
    ensures var d := cfg.hash(Payload(cfg.known.sol, c));
            var txs := TwiceFrom(s, d, p, sign, now);
            && (forall tx :: tx in txs ==> PrecompileAccepted(valid, tx))
            && After(cfg, s, txs).threshold == 2
            && Released(cfg, After(cfg, s, txs), s.operator, d, c, later).Ok?
            && forall pk: Pubkey :: Presented(cfg, valid, s, txs, pk, d) ==> pk == s.guardians[p + 1]
  {
    hide Payload, Pay, Released, PrecompileAccepted, TwiceFrom, After, Presented;
    var d := cfg.hash(Payload(cfg.known.sol, c));
    var txs := TwiceFrom(s, d, p, sign, now);
    TwiceRecorded(cfg, valid, sign, s, d, p, now);
    var t := After(cfg, s, txs);
    SamePayable(cfg, s, t, c);
    ReleasedLater(cfg, t, c, later);
    forall pk: Pubkey | Presented(cfg, valid, s, txs, pk, d)
      ensures pk == s.guardians[p + 1]
    {
      TwicePresentsOne(cfg, valid, sign, s, d, p, now, pk);
    }
  }

  lemma SameSignature(s: State, t: State, d: Digest, i: byte, sign: Signer, now: Clock)
    requires s.guardians == t.guardians && i < |s.guardians|
    ensures OneSignature(s, d, i, sign, now) == OneSignature(t, d, i, sign, now)
  {
  }

  // ---------------------------------------- what other index fields allow

  /** Indexes of the first guardians, and bundles in their names with one and the same signature. */
  function FirstIndexes(n: byte): (r: seq<byte>)
    ensures |r| == n && forall i :: 0 <= i < n ==> r[i] == i
  {
    seq(n as nat, i requires 0 <= i < n => i)
  }

  function InTheirNames(guardians: seq<Pubkey>, n: byte, signature: Bytes64, d: Digest): (r: seq<Bundle>)
    requires n <= |guardians|
    ensures |r| == n && forall i :: 0 <= i < n ==> r[i] == Bundle(guardians[i], signature, d)
  {
    seq(n as nat, i requires 0 <= i < n => Bundle(guardians[i], signature, d))
  }

  /** A threshold of those bundles, in data whose index fields name instruction `k`. */
  function OneUnchecked(s: State, d: Digest, signature: Bytes64, k: u16, now: Clock): Tx
    requires 0 < s.threshold <= |s.guardians|
  {
    var data := PackedData(InTheirNames(s.guardians, s.threshold, signature, d), k);
    Tx(Call(VerifySignature(d, FirstIndexes(s.threshold), Ed25519Ix(true, 0, data))), now)
  }

  lemma UncheckedRecorded(cfg: Config, valid: Oracle, s: State, d: Digest, signature: Bytes64, checked: seq<Bundle>,
                          others: seq<Bytes>, k: u16, j: u16, now: Clock)
    requires 0 < s.threshold <= MAX_GUARDIAN_SIGNATURES && s.threshold <= |s.guardians| && d !in s.records
    requires |checked| == s.threshold && OneMessage(checked) && AllValid(valid, checked)
    requires k < |others| && k != OWN_DATA && others[k] == PackedData(checked, j)
    ensures var tx := OneUnchecked(s, d, signature, k, now);
            && ProgramPasses(valid, tx.action.ix.previous.data, others)
            && Carries(tx.action.ix.previous, InTheirNames(s.guardians, s.threshold, signature, d))
            && After(cfg, s, [tx]) == s.(records := s.records[d := Record(FirstIndexes(s.threshold), now.time)])
  {
    hide PackedData, LoadedSignatures, VerifiedBatch, ProgramPasses, Act;
    var tx := OneUnchecked(s, d, signature, k, now);
    var sigs := InTheirNames(s.guardians, s.threshold, signature, d);
    OtherFieldsCheckOtherBytes(valid, sigs, checked, others, k, j);
    BatchVerified(s, d, FirstIndexes(s.threshold), tx.action.ix.previous, sigs, now);
    var t := s.(records := s.records[d := Record(FirstIndexes(s.threshold), now.time)]);
    assert OpenIndex(s, d) + FirstIndexes(s.threshold) == FirstIndexes(s.threshold);
    assert Step(cfg, s, tx.action.ix, now) == Ok(t);
    ActOfSuccess(cfg, s, tx.action.ix, now, t);
    AfterMore(cfg, s, [], tx);
    assert [] + [tx] == [tx];
  }

  /** The payout: from any sound state with a threshold of at most 10, one call whose Ed25519 instruction passes, but on
      another instruction's bytes, gets a payable claim released six hours on, with no valid signature of it by any
      listed guardian presented if none exists. `PassingVouchesExactly` tells such instructions from the others. */
  lemma OtherFieldsReleaseUnsigned(cfg: Config, valid: Oracle, s: State, c: Claim, signature: Bytes64,
                                   checked: seq<Bundle>, others: seq<Bytes>, k: u16, j: u16, now: Clock, later: Clock)
    requires GuardiansSound(s) && 0 < s.threshold <= MAX_GUARDIAN_SIGNATURES
    requires Payable(cfg, s, c) && now.time + AWAITING_TIME_SECONDS <= later.time
    requires cfg.hash(Payload(cfg.known.sol, c)) !in s.records
    requires |checked| == s.threshold && OneMessage(checked) && AllValid(valid, checked)
    requires k < |others| && k != OWN_DATA && others[k] == PackedData(checked, j)
    ensures var d := cfg.hash(Payload(cfg.known.sol, c));
            var tx := OneUnchecked(s, d, signature, k, now);
            && ProgramPasses(valid, tx.action.ix.previous.data, others)
            && Released(cfg, After(cfg, s, [tx]), s.operator, d, c, later).Ok?
            && forall pk: Pubkey :: Presented(cfg, valid, s, [tx], pk, d) ==>
                 pk in s.guardians && valid(pk, signature, d)
  {
    hide Payload, Pay, Released, Act, PackedData, LoadedSignatures, ProgramPasses, Succeeds;
    var d := cfg.hash(Payload(cfg.known.sol, c));
    var tx := OneUnchecked(s, d, signature, k, now);
    UncheckedRecorded(cfg, valid, s, d, signature, checked, others, k, j, now);
    var t := After(cfg, s, [tx]);
    SamePayable(cfg, s, t, c);
    ReleasedLater(cfg, t, c, later);
    forall pk: Pubkey | Presented(cfg, valid, s, [tx], pk, d)
      ensures pk in s.guardians && valid(pk, signature, d)
    {
      assert PresentedIn(valid, [tx][0], pk, d);
    }
  }
}
