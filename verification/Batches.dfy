/** How signatures add up: one batch or several, and which claims enough of them can release. */
module Batches {
  import opened Types
  import opened Ed25519Codec
  import opened BridgeSpec
  import opened Approval

  /** An instruction that passes every check but the one against the signers. */
  predicate Carries(ix: Ed25519Ix, sigs: seq<Bundle>) {
    ix.isEd25519Program && ix.accounts == 0 && LoadedSignatures(ix.data) == Ok(sigs)
  }

  /** The bundles are the named guardians' signatures of `d`, in order. */
  predicate Covers(guardians: seq<Pubkey>, indexes: seq<byte>, sigs: seq<Bundle>, d: Digest) {
    && |sigs| == |indexes|
    && forall i :: 0 <= i < |indexes| ==>
         indexes[i] < |guardians| && sigs[i].pubkey == guardians[indexes[i]] && sigs[i].msg == d
  }

  lemma CarriedVerdict(ix: Ed25519Ix, sigs: seq<Bundle>, signers: seq<Pubkey>, d: Digest)
    requires Carries(ix, sigs) && signers != []
    ensures Ed25519IxVerdict(ix, signers, d).Ok? <==> Matches(sigs, signers, d)
  {
    hide Ed25519IxVerdict, LoadedSignatures;
    DecoderExact(ix.data);
    VerifierExact(ix, signers, d);
  }

  /** Success of one call, in terms of the lists alone. */
  lemma BatchVerified(s: State, d: Digest, indexes: seq<byte>, ix: Ed25519Ix, sigs: seq<Bundle>, clock: Clock)
    requires Carries(ix, sigs)
    ensures VerifiedBatch(s, d, indexes, ix, clock).Ok? <==>
              Extends(s.guardians, OpenIndex(s, d), indexes) && Covers(s.guardians, indexes, sigs, d)
  {
    hide Ed25519IxVerdict, CheckBatch, Carries;
    BatchAccepted(s.guardians, OpenIndex(s, d), indexes);
    if Extends(s.guardians, OpenIndex(s, d), indexes) {
      CarriedVerdict(ix, sigs, Named(s.guardians, indexes).value, d);
    }
  }

  lemma ExtendsSplits(guardians: seq<Pubkey>, open: seq<byte>, a: seq<byte>, b: seq<byte>)
    requires a != [] && b != []
    ensures Extends(guardians, open, a + b) <==> Extends(guardians, open, a) && Extends(guardians, open + a, b)
  {
    var all := a + b;
    assert forall i :: 0 <= i < |a| ==> all[i] == a[i];
    assert forall j :: 0 <= j < |b| ==> all[|a| + j] == b[j];
    assert NoDups(all) <==> NoDups(a) && NoDups(b) && forall j :: 0 <= j < |b| ==> b[j] !in a;
  }

  lemma CoversSplits(guardians: seq<Pubkey>, a: seq<byte>, b: seq<byte>, sa: seq<Bundle>, sb: seq<Bundle>, d: Digest)
    requires |sa| == |a| && |sb| == |b|
    ensures Covers(guardians, a + b, sa + sb, d) <==> Covers(guardians, a, sa, d) && Covers(guardians, b, sb, d)
  {
    var all, sigs := a + b, sa + sb;
    assert forall i :: 0 <= i < |a| ==> all[i] == a[i] && sigs[i] == sa[i];
    assert forall j :: 0 <= j < |b| ==> all[|a| + j] == b[j] && sigs[|a| + j] == sb[j];
  }

  /** Verifying `a` and then `b` succeeds exactly when verifying them in one call does, and gives the same
      state when that one call comes at the time of the second. */
  lemma BatchHomomorphism(s: State, d: Digest, a: seq<byte>, b: seq<byte>, sa: seq<Bundle>, sb: seq<Bundle>,
                          ixA: Ed25519Ix, ixB: Ed25519Ix, ixAB: Ed25519Ix, first: Clock, second: Clock)
    requires a != [] && b != [] && |sa| == |a| && |sb| == |b|
    requires Carries(ixA, sa) && Carries(ixB, sb) && Carries(ixAB, sa + sb)
    ensures var half := VerifiedBatch(s, d, a, ixA, first);
            var split := if half.Ok? then VerifiedBatch(half.value, d, b, ixB, second) else half;
            var whole := VerifiedBatch(s, d, a + b, ixAB, second);
            && (split.Ok? <==> whole.Ok?)
            && (whole.Ok? ==> split == whole)
  {
    hide VerifiedBatch, Extends, Covers, Carries;
    var half := VerifiedBatch(s, d, a, ixA, first);
    BatchVerified(s, d, a, ixA, sa, first);
    BatchVerified(s, d, a + b, ixAB, sa + sb, second);
    ExtendsSplits(s.guardians, OpenIndex(s, d), a, b);
    CoversSplits(s.guardians, a, b, sa, sb, d);
    if half.Ok? {
      BatchVerified(half.value, d, b, ixB, sb, second);
      assert (OpenIndex(s, d) + a) + b == OpenIndex(s, d) + (a + b);
      var record := Record(OpenIndex(s, d) + (a + b), second.time);
      assert half.value.records[d := record] == s.records[d := record];
    }
  }
}
