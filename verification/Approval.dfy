/** Guardian approval, from the Ed25519 instruction to the payout. */
module Approval {
  import opened Types
  import opened Payloads
  import opened Ed25519Codec
  import opened Precompile
  import opened SignerIndexes
  import opened BridgeSpec
  import opened Runs
  import opened Quorum

  /** A transaction whose Ed25519 instruction failed would not have reached the bridge program; and entries with
      the scripts' index fields name everything that is decoded, which is exactly when passing vouches for it. */
  ghost predicate PrecompileAccepted(valid: Oracle, tx: Tx) {
    tx.action.Call? && tx.action.ix.VerifySignature? && tx.action.ix.previous.isEd25519Program ==>
      var data := tx.action.ix.previous.data;
      (Decodable(data) ==> OwnFieldsCover(data)) && exists others: seq<Bytes> :: ProgramPasses(valid, data, others)
  }

  /** The transaction carries a guardian's valid signature of `d` to `verify_signature`. */
  ghost predicate PresentedIn(valid: Oracle, tx: Tx, pk: Pubkey, d: Digest) {
    && tx.action.Call? && tx.action.ix.VerifySignature? && tx.action.ix.msgHash == d
    && LoadedSignatures(tx.action.ix.previous.data).Ok?
    && var sigs := LoadedSignatures(tx.action.ix.previous.data).value;
       exists i :: 0 <= i < |sigs| && sigs[i].pubkey == pk && sigs[i].msg == d && valid(pk, sigs[i].signature, d)
  }

  /** Some successful transaction of the run carried the guardian's valid signature of `d`. */
  ghost predicate Presented(cfg: Config, valid: Oracle, s0: State, txs: seq<Tx>, pk: Pubkey, d: Digest) {
    exists k :: 0 <= k < |txs| && Succeeds(cfg, Before(cfg, s0, txs, k), txs[k]) && PresentedIn(valid, txs[k], pk, d)
  }

  ghost function Presenters(cfg: Config, valid: Oracle, s0: State, txs: seq<Tx>, d: Digest): Pubkey -> bool {
    (pk: Pubkey) => Presented(cfg, valid, s0, txs, pk, d)
  }

  /** Every index of a list names a guardian that `backs` holds for, and no two name the same one. */
  ghost predicate IndexBacked(guardians: seq<Pubkey>, index: seq<byte>, backs: Pubkey -> bool) {
    && NoDups(index)
    && 0 < |index| <= MAX_GUARDIAN_SIGNATURES
    && forall j :: 0 <= j < |index| ==> index[j] < |guardians| && backs(guardians[index[j]])
  }

  ghost predicate RecordBacked(s: State, d: Digest, backs: Pubkey -> bool) {
    d in s.records ==> IndexBacked(s.guardians, s.records[d].index, backs)
  }

  /** The removed guardian stands after every recorded signer, so their positions do not move. */
  predicate HarmlessRemoval(s: State, d: Digest, guardian: Pubkey) {
    d in s.records ==>
      forall p, j :: 0 <= p < |s.guardians| && 0 <= j < |s.records[d].index| && s.guardians[p] == guardian ==>
        s.records[d].index[j] < p
  }

  predicate HarmlessTx(s: State, d: Digest, tx: Tx) {
    tx.action.Call? && tx.action.ix.RemoveGuardian? ==> HarmlessRemoval(s, d, tx.action.ix.guardian)
  }

  /** The batch extends the open record: new indexes of listed guardians, within the limits. */
  predicate Extends(guardians: seq<Pubkey>, open: seq<byte>, indexes: seq<byte>) {
    && indexes != [] && NoDups(indexes)
    && (forall i :: 0 <= i < |indexes| ==> indexes[i] < |guardians| && indexes[i] !in open)
    && |open| + |indexes| <= |guardians|
    && |open| + |indexes| <= MAX_GUARDIAN_SIGNATURES
  }

  /** The index checks of `verify_signature` accept exactly the batches that extend the record, and keep it
      free of duplicates. */
  lemma BatchAccepted(guardians: seq<Pubkey>, open: seq<byte>, indexes: seq<byte>)
    ensures CheckBatch(guardians, open, indexes).Ok? <==> Extends(guardians, open, indexes)
    ensures Extends(guardians, open, indexes) && NoDups(open) ==> NoDups(open + indexes)
    ensures CheckBatch(guardians, open, indexes).Ok? ==>
              CheckBatch(guardians, open, indexes) == Named(guardians, indexes)
  {
    DuplicateTestExact(indexes);
    if NoDups(indexes) && (forall i :: 0 <= i < |indexes| ==> indexes[i] !in open) && NoDups(open) {
      var all := open + indexes;
      forall i, j | 0 <= i < j < |all|
        ensures all[i] != all[j]
      {
        assert i < |open| <= j ==> all[i] in open && all[j] == indexes[j - |open|];
      }
    }
  }

  /** An accepted batch carries a valid signature of the record's digest by every guardian it names. */
  lemma BatchSigned(valid: Oracle, s: State, d: Digest, indexes: seq<byte>, previous: Ed25519Ix, clock: Clock)
    requires PrecompileAccepted(valid, Tx(Call(VerifySignature(d, indexes, previous)), clock))
    ensures VerifiedBatch(s, d, indexes, previous, clock).Ok? ==>
              forall i :: 0 <= i < |indexes| ==>
                && indexes[i] < |s.guardians|
                && PresentedIn(valid, Tx(Call(VerifySignature(d, indexes, previous)), clock),
                               s.guardians[indexes[i]], d)
  {
    hide OwnFieldsCover, ProgramPasses, LoadedSignatures, Decodable;
    if VerifiedBatch(s, d, indexes, previous, clock).Ok? {
      BatchAccepted(s.guardians, OpenIndex(s, d), indexes);
      var signers := CheckBatch(s.guardians, OpenIndex(s, d), indexes).value;
      VerifierExact(previous, signers, d);
      DecoderExact(previous.data);
      var others: seq<Bytes> :| ProgramPasses(valid, previous.data, others);
      DecodedAreValid(valid, previous.data, others);
      var sigs := LoadedSignatures(previous.data).value;
      forall i | 0 <= i < |indexes|
        ensures indexes[i] < |s.guardians|
        ensures PresentedIn(valid, Tx(Call(VerifySignature(d, indexes, previous)), clock), s.guardians[indexes[i]], d)
      {
        assert sigs[i].pubkey == signers[i] && sigs[i].msg == d;
      }
    }
  }

  /** An accepted batch extends a backed record to a backed record. */
  lemma BatchKeepsBacked(s: State, d: Digest, indexes: seq<byte>, previous: Ed25519Ix, clock: Clock,
                         backs: Pubkey -> bool)
    requires VerifiedBatch(s, d, indexes, previous, clock).Ok?
    requires RecordBacked(s, d, backs)
    requires forall i :: 0 <= i < |indexes| && indexes[i] < |s.guardians| ==> backs(s.guardians[indexes[i]])
    ensures IndexBacked(s.guardians, OpenIndex(s, d) + indexes, backs)
  {
    BatchAccepted(s.guardians, OpenIndex(s, d), indexes);
  }

  lemma RemovalKeepsBacked(s: State, manager: Pubkey, guardian: Pubkey, d: Digest, backs: Pubkey -> bool)
    requires GuardiansSound(s) && RemoveGuardianFrom(s, manager, guardian).Ok?
    requires RecordBacked(s, d, backs) && HarmlessRemoval(s, d, guardian)
    ensures RecordBacked(RemoveGuardianFrom(s, manager, guardian).value, d, backs)
  {
    var p :| 0 <= p < |s.guardians| && s.guardians[p] == guardian;
    WithoutOne(s.guardians, guardian, p);
    if d in s.records {
      var index := s.records[d].index;
      assert forall j :: 0 <= j < |index| ==> index[j] < p;
    }
  }

  lemma BackedWeakens(s: State, d: Digest, backs: Pubkey -> bool, backs': Pubkey -> bool)
    requires RecordBacked(s, d, backs) && forall pk: Pubkey :: backs(pk) ==> backs'(pk)
    ensures RecordBacked(s, d, backs')
  {
  }

  /** The batch, if this is one for `d`, adds only signers that are backed. */
  ghost predicate BatchBacked(s: State, d: Digest, ix: Instruction, backs: Pubkey -> bool) {
    ix.VerifySignature? && ix.msgHash == d ==>
      forall i :: 0 <= i < |ix.indexes| && ix.indexes[i] < |s.guardians| ==> backs(s.guardians[ix.indexes[i]])
  }

  lemma StepKeepsBacked(cfg: Config, s: State, ix: Instruction, clock: Clock, d: Digest, backs: Pubkey -> bool)
    requires GuardiansSound(s) && RecordBacked(s, d, backs) && BatchBacked(s, d, ix, backs)
    requires ix.RemoveGuardian? ==> HarmlessRemoval(s, d, ix.guardian)
    ensures Step(cfg, s, ix, clock).Ok? ==> RecordBacked(Step(cfg, s, ix, clock).value, d, backs)
  {
    hide Released, SourcedToken, SourcedSol, AddedToken, VerifiedBatch, Ed25519IxVerdict;
    if Step(cfg, s, ix, clock).Ok? {
      match ix
      case RemoveGuardian(manager, guardian) => RemovalKeepsBacked(s, manager, guardian, d, backs);
      case VerifySignature(msgHash, indexes, previous) =>
        if msgHash == d {
          BatchKeepsBacked(s, d, indexes, previous, clock, backs);
        }
      case _ => StepFrame(cfg, s, ix, clock);
    }
  }

  /** One transaction keeps a record backed, when the signers it adds are, and removals are harmless. */
  lemma ActKeepsBacked(cfg: Config, s: State, tx: Tx, d: Digest, backs: Pubkey -> bool)
    requires GuardiansSound(s) && RecordBacked(s, d, backs)
    requires Succeeds(cfg, s, tx) ==> HarmlessTx(s, d, tx) && BatchBacked(s, d, tx.action.ix, backs)
    ensures RecordBacked(Act(cfg, s, tx), d, backs)
  {
    hide Step;
    if Succeeds(cfg, s, tx) {
      StepKeepsBacked(cfg, s, tx.action.ix, tx.clock, d, backs);
    }
  }

  /** The guardians that a list of indexes names. */
  function Image(guardians: seq<Pubkey>, index: seq<byte>): set<Pubkey> {
    set j | 0 <= j < |index| && index[j] < |guardians| :: guardians[index[j]]
  }

  /** The guardians a record counts. */
  function Signers(s: State, d: Digest): set<Pubkey> {
    Image(s.guardians, OpenIndex(s, d))
  }

  lemma ImageOfLonger(guardians: seq<Pubkey>, front: seq<byte>, last: byte)
    requires NoDups(guardians) && last < |guardians| && last !in front
    ensures Image(guardians, front + [last]) == Image(guardians, front) + {guardians[last]}
    ensures guardians[last] !in Image(guardians, front)
  {
    var index := front + [last];
    assert forall j :: 0 <= j < |front| ==> index[j] == front[j];
    assert index[|front|] == last;
  }

  lemma LastIsNew(front: seq<byte>, last: byte)
    requires NoDups(front + [last])
    ensures NoDups(front) && last !in front
  {
    var index := front + [last];
    assert forall j :: 0 <= j < |front| ==> index[j] == front[j];
    assert index[|front|] == last;
  }

  lemma {:induction false} DistinctImage(guardians: seq<Pubkey>, index: seq<byte>)
    requires NoDups(guardians) && NoDups(index)
    requires forall j :: 0 <= j < |index| ==> index[j] < |guardians|
    ensures |Image(guardians, index)| == |index|
  {
    if index == [] {
      assert Image(guardians, index) == {};
    } else {
      hide NoDups, Image;
      var front, last := index[..|index| - 1], index[|index| - 1];
      assert index == front + [last];
      LastIsNew(front, last);
      DistinctImage(guardians, front);
      ImageOfLonger(guardians, front, last);
    }
  }

  /** As many distinct guardians as the record has indexes, all of them backing it. */
  lemma SignersCount(s: State, d: Digest, backs: Pubkey -> bool)
    requires GuardiansSound(s) && d in s.records && RecordBacked(s, d, backs)
    ensures |Signers(s, d)| == |s.records[d].index|
    ensures Signers(s, d) <= Members(s.guardians)
    ensures forall pk :: pk in Signers(s, d) ==> backs(pk)
  {
    DistinctImage(s.guardians, s.records[d].index);
  }

  /** The Ed25519 program vouched for every batch that was recorded for `d`. */
  ghost predicate BatchesAccepted(cfg: Config, valid: Oracle, s0: State, txs: seq<Tx>, d: Digest) {
    forall k :: 0 <= k < |txs| && Records(cfg, Before(cfg, s0, txs, k), txs[k], d) ==>
      PrecompileAccepted(valid, txs[k])
  }

  /** No guardian at or before a recorded signer's position is removed while the record of `d` is open. */
  ghost predicate PositionsKept(cfg: Config, s0: State, txs: seq<Tx>, d: Digest) {
    forall k :: 0 <= k < |txs| ==>
      var s := Before(cfg, s0, txs, k); Succeeds(cfg, s, txs[k]) ==> HarmlessTx(s, d, txs[k])
  }

  lemma PrefixHypotheses(cfg: Config, valid: Oracle, s0: State, txs: seq<Tx>, d: Digest, n: nat)
    requires n <= |txs| && PositionsKept(cfg, s0, txs, d) && BatchesAccepted(cfg, valid, s0, txs, d)
    ensures PositionsKept(cfg, s0, txs[..n], d) && BatchesAccepted(cfg, valid, s0, txs[..n], d)
  {
    hide Step, HarmlessTx, PrecompileAccepted, Records;
    forall k | 0 <= k < n
      ensures var s := Before(cfg, s0, txs[..n], k); Succeeds(cfg, s, txs[..n][k]) ==> HarmlessTx(s, d, txs[..n][k])
      ensures Records(cfg, Before(cfg, s0, txs[..n], k), txs[..n][k], d) ==> PrecompileAccepted(valid, txs[..n][k])
    {
      assert txs[..n][..k] == txs[..k];
      assert Succeeds(cfg, Before(cfg, s0, txs, k), txs[k]) ==> HarmlessTx(Before(cfg, s0, txs, k), d, txs[k]);
      assert Records(cfg, Before(cfg, s0, txs, k), txs[k], d) ==> PrecompileAccepted(valid, txs[k]);
    }
  }

  lemma BatchBackedBySigners(cfg: Config, valid: Oracle, s: State, d: Digest, tx: Tx, backs: Pubkey -> bool)
    requires Succeeds(cfg, s, tx) && (Records(cfg, s, tx, d) ==> PrecompileAccepted(valid, tx))
    requires forall pk: Pubkey :: PresentedIn(valid, tx, pk, d) ==> backs(pk)
    ensures BatchBacked(s, d, tx.action.ix, backs)
  {
    var ix := tx.action.ix;
    if ix.VerifySignature? && ix.msgHash == d {
      BatchSigned(valid, s, d, ix.indexes, ix.previous, tx.clock);
    }
    hide PrecompileAccepted, VerifiedBatch, PresentedIn;
  }

  /** Who presented a signature in a prefix did so in the run. */
  lemma PresentedEarlier(cfg: Config, valid: Oracle, s0: State, txs: seq<Tx>, n: nat, d: Digest)
    requires n <= |txs|
    ensures forall pk: Pubkey :: Presenters(cfg, valid, s0, txs[..n], d)(pk) ==> Presenters(cfg, valid, s0, txs, d)(pk)
  {
    hide Succeeds, PresentedIn, After;
    forall pk: Pubkey | Presented(cfg, valid, s0, txs[..n], pk, d)
      ensures Presented(cfg, valid, s0, txs, pk, d)
    {
      var k :| 0 <= k < n && Succeeds(cfg, Before(cfg, s0, txs[..n], k), txs[..n][k])
               && PresentedIn(valid, txs[..n][k], pk, d);
      assert txs[..n][..k] == txs[..k];
    }
  }

  /** In every run every index of the record of `d` names a guardian whose valid signature of `d` an earlier
      successful transaction carried. */
  lemma {:induction false} RecordSigned(cfg: Config, valid: Oracle, s0: State, txs: seq<Tx>, d: Digest)
    requires IsInitial(cfg, s0) && BatchesAccepted(cfg, valid, s0, txs, d) && PositionsKept(cfg, s0, txs, d)
    ensures RecordBacked(After(cfg, s0, txs), d, Presenters(cfg, valid, s0, txs, d))
  {
    hide Step, Act, HarmlessTx, PrecompileAccepted, BatchBacked, VerifiedBatch, Adds, PresentedIn, IndexBacked, Records;
    if txs != [] {
      var n := |txs| - 1;
      var front, tx := txs[..n], txs[n];
      PrefixHypotheses(cfg, valid, s0, txs, d, n);
      RecordSigned(cfg, valid, s0, front, d);
      QuorumInvariant(cfg, s0, front);
      var s, backs := After(cfg, s0, front), Presenters(cfg, valid, s0, txs, d);
      assert s == Before(cfg, s0, txs, n);
      PresentedEarlier(cfg, valid, s0, txs, n, d);
      BackedWeakens(s, d, Presenters(cfg, valid, s0, front, d), backs);
      if Succeeds(cfg, s, tx) {
        BatchBackedBySigners(cfg, valid, s, d, tx, backs);
      }
      ActKeepsBacked(cfg, s, tx, d, backs);
    }
  }

  /** What a successful release has checked. */
  lemma ReleaseChecks(cfg: Config, s: State, operator: Pubkey, d: Digest, c: Claim, clock: Clock)
    requires Released(cfg, s, operator, d, c, clock).Ok?
    ensures d in s.records && d == cfg.hash(Payload(cfg.known.sol, c))
    ensures s.threshold <= |s.records[d].index| <= MAX_GUARDIAN_SIGNATURES
    ensures cfg.hash(c.txId) !in s.proofs && !s.pause
  {
  }

  /** End to end: whenever a release succeeds, at least `threshold` distinct guardians of the list have had a valid
      signature of the hash of exactly the fields it pays out carried by an earlier transaction of the run. */
  lemma EveryPayoutApproved(cfg: Config, valid: Oracle, s0: State, txs: seq<Tx>,
                            operator: Pubkey, d: Digest, c: Claim, clock: Clock)
    requires IsInitial(cfg, s0) && BatchesAccepted(cfg, valid, s0, txs, d) && PositionsKept(cfg, s0, txs, d)
    requires Released(cfg, After(cfg, s0, txs), operator, d, c, clock).Ok?
    ensures var s := After(cfg, s0, txs);
            && |Signers(s, d)| >= s.threshold
            && Signers(s, d) <= Members(s.guardians)
            && forall pk :: pk in Signers(s, d) ==>
                 Presented(cfg, valid, s0, txs, pk, cfg.hash(Payload(cfg.known.sol, c)))
  {
    hide Act, Presented, Payload, BatchesAccepted, PositionsKept;
    var s := After(cfg, s0, txs);
    QuorumInvariant(cfg, s0, txs);
    RecordSigned(cfg, valid, s0, txs, d);
    ReleaseChecks(cfg, s, operator, d, c, clock);
    SignersCount(s, d, Presenters(cfg, valid, s0, txs, d));
    hide Released, Signers;
  }

  /** A guardian that signed one of the payouts it agreed to signed this one, field for field, unless two
      payloads collide under the hash. */
  lemma SignedFieldsAreUnique(cfg: Config, agreed: set<Claim>, a: Claim, c: Claim)
    requires a in agreed && cfg.hash(Payload(cfg.known.sol, a)) == cfg.hash(Payload(cfg.known.sol, c))
    requires NoCollision(cfg, agreed, c)
    ensures a == c
  {
    PayloadInjective(cfg.known.sol, a, c);
  }

  /** No claim of a set has another payload of the same hash. */
  ghost predicate NoCollision(cfg: Config, agreed: set<Claim>, c: Claim) {
    forall a :: a in agreed && cfg.hash(Payload(cfg.known.sol, a)) == cfg.hash(Payload(cfg.known.sol, c)) ==>
      Payload(cfg.known.sol, a) == Payload(cfg.known.sol, c)
  }

  // ------------------------------------------------ why positions must be kept

  /** A removal leaves every recorded index naming the guardian it named exactly when it is harmless. */
  lemma RemovalExact(s: State, manager: Pubkey, guardian: Pubkey, d: Digest)
    requires GuardiansSound(s) && RemoveGuardianFrom(s, manager, guardian).Ok? && d in s.records
    requires forall j :: 0 <= j < |s.records[d].index| ==> s.records[d].index[j] < |s.guardians|
    ensures var left := RemoveGuardianFrom(s, manager, guardian).value.guardians;
            var index := s.records[d].index;
            (forall j :: 0 <= j < |index| ==> index[j] < |left| && left[index[j]] == s.guardians[index[j]])
            <==> HarmlessRemoval(s, d, guardian)
  {
    var p :| 0 <= p < |s.guardians| && s.guardians[p] == guardian;
    WithoutOne(s.guardians, guardian, p);
    var left := Without(s.guardians, guardian);
    var index := s.records[d].index;
    forall j | 0 <= j < |index|
      ensures index[j] < p <==> index[j] < |left| && left[index[j]] == s.guardians[index[j]]
    {
      var i := index[j];
      assert p <= i < |left| ==> left[i] == s.guardians[i + 1] != s.guardians[i];
      assert i < p ==> left[i] == s.guardians[i];
    }
  }

  /** Otherwise one guardian can be accepted twice: its record keeps its old position, and the position it
      shifts to is free. */
  lemma ShiftedGuardianCountsTwice(s: State, manager: Pubkey, guardian: Pubkey, d: Digest, p: nat)
    requires GuardiansSound(s) && RemoveGuardianFrom(s, manager, guardian).Ok? && d in s.records
    requires p + 1 < |s.guardians| && s.guardians[p] == guardian
    requires s.records[d].index == [p + 1]
    ensures var t := RemoveGuardianFrom(s, manager, guardian).value;
            && |t.guardians| == |s.guardians| - 1 && t.guardians[p] == s.guardians[p + 1]
            && (|t.guardians| >= 2 ==> CheckBatch(t.guardians, t.records[d].index, [p]) == Ok([s.guardians[p + 1]]))
  {
    WithoutOne(s.guardians, guardian, p);
    var t := RemoveGuardianFrom(s, manager, guardian).value;
    BatchAccepted(t.guardians, t.records[d].index, [p]);
    if |t.guardians| >= 2 {
      assert Named(t.guardians, [p]).value == [s.guardians[p + 1]];
    }
  }
}
