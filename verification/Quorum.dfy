/** Guardian membership and the majority threshold over whole runs. */
module Quorum {
  import opened Types
  import opened BridgeSpec
  import opened Runs

  /** Guardians added since the threshold was last set. */
  ghost function Adds(cfg: Config, s0: State, txs: seq<Tx>): nat {
    if txs == [] then 0
    else
      var front := txs[..|txs| - 1];
      var tx := txs[|txs| - 1];
      if !Succeeds(cfg, After(cfg, s0, front), tx) then Adds(cfg, s0, front)
      else if tx.action.ix.UpdateThreshold? then 0
      else if tx.action.ix.AddGuardian? then Adds(cfg, s0, front) + 1
      else Adds(cfg, s0, front)
  }

  predicate GuardiansSound(s: State) {
    && NoDups(s.guardians)
    && |s.guardians| <= MAX_GUARDIAN_COUNT
    && (s.threshold == UNSET_THRESHOLD || 1 <= s.threshold <= |s.guardians|)
  }

  lemma {:induction false} WithoutOne(guardians: seq<Pubkey>, guardian: Pubkey, p: nat)
    requires NoDups(guardians) && p < |guardians| && guardians[p] == guardian
    ensures Without(guardians, guardian) == guardians[..p] + guardians[p + 1..]
  {
    var rest := guardians[1..];
    if p == 0 {
      assert forall i :: 0 <= i < |rest| ==> rest[i] == guardians[i + 1];
      WithoutNone(rest, guardian);
    } else {
      assert NoDups(rest) && guardians[0] != guardian;
      WithoutOne(rest, guardian, p - 1);
      assert guardians[..p] == [guardians[0]] + rest[..p - 1];
      assert guardians[p + 1..] == rest[p..];
    }
  }

  lemma {:induction false} WithoutNone(guardians: seq<Pubkey>, guardian: Pubkey)
    requires guardian !in guardians
    ensures Without(guardians, guardian) == guardians
  {
    if guardians != [] {
      WithoutNone(guardians[1..], guardian);
    }
  }

  lemma RemovalKeepsSound(s: State, manager: Pubkey, guardian: Pubkey)
    requires GuardiansSound(s) && RemoveGuardianFrom(s, manager, guardian).Ok?
    ensures var t := RemoveGuardianFrom(s, manager, guardian).value;
            GuardiansSound(t) && |t.guardians| == |s.guardians| - 1
  {
    var p :| 0 <= p < |s.guardians| && s.guardians[p] == guardian;
    WithoutOne(s.guardians, guardian, p);
    var left := Without(s.guardians, guardian);
    assert forall i :: 0 <= i < |left| ==> left[i] == s.guardians[if i < p then i else i + 1];
  }

  lemma AdditionKeepsSound(s: State, manager: Pubkey, guardian: Pubkey)
    requires GuardiansSound(s) && AddGuardianTo(s, manager, guardian).Ok?
    ensures var t := AddGuardianTo(s, manager, guardian).value;
            GuardiansSound(t) && |t.guardians| == |s.guardians| + 1
  {
  }

  lemma UpdateGivesMajority(s: State, manager: Pubkey, threshold: byte)
    requires GuardiansSound(s) && UpdatedThreshold(s, manager, threshold).Ok?
    ensures var t := UpdatedThreshold(s, manager, threshold).value;
            GuardiansSound(t) && 2 * t.threshold > |t.guardians|
  {
  }

  lemma {:induction false} WithoutMembers(guardians: seq<Pubkey>, guardian: Pubkey)
    ensures Members(Without(guardians, guardian)) == Members(guardians) - {guardian}
  {
    if guardians != [] {
      var rest := guardians[1..];
      WithoutMembers(rest, guardian);
      assert guardians == [guardians[0]] + rest;
      assert Members(guardians) == {guardians[0]} + Members(rest);
    }
  }

  lemma AdditionAccepted(s: State, manager: Pubkey, guardian: Pubkey)
    ensures var r := AddGuardianTo(s, manager, guardian);
            && (r.Ok? <==> manager == s.manager && guardian !in s.guardians && |s.guardians| < 15)
            && (r.Ok? ==> r.value == s.(guardians := s.guardians + [guardian]))
  {
  }

  lemma RemovalAccepted(s: State, manager: Pubkey, guardian: Pubkey)
    requires GuardiansSound(s)
    ensures var r := RemoveGuardianFrom(s, manager, guardian);
            && (r.Ok? <==> manager == s.manager && guardian in s.guardians && s.threshold < |s.guardians|)
            && (r.Ok? ==>
                  && r.value == s.(guardians := r.value.guardians)
                  && Members(r.value.guardians) == Members(s.guardians) - {guardian})
  {
    hide NoDups, Members, Without;
    RemovedExact(s, guardian);
  }

  lemma ThresholdAccepted(s: State, manager: Pubkey, threshold: byte)
    requires GuardiansSound(s)
    ensures var r := UpdatedThreshold(s, manager, threshold);
            && (r.Ok? <==> manager == s.manager && |s.guardians| < 2 * threshold && threshold <= |s.guardians|)
            && (r.Ok? ==> r.value == s.(threshold := threshold))
  {
    hide NoDups;
  }

  /** Who may be added or removed and which thresholds may be set, by the manager, in a sound state: a new guardian
      while the list is not full; a listed one while the threshold stays met, never before a threshold is set;
      and exactly the strict majorities of the list. */
  lemma MembershipExact(cfg: Config, s: State, manager: Pubkey, guardian: Pubkey, threshold: byte, clock: Clock)
    requires GuardiansSound(s)
    ensures var r := Step(cfg, s, AddGuardian(manager, guardian), clock);
            && (r.Ok? <==> manager == s.manager && guardian !in s.guardians && |s.guardians| < 15)
            && (r.Ok? ==> r.value == s.(guardians := s.guardians + [guardian]))
    ensures var r := Step(cfg, s, RemoveGuardian(manager, guardian), clock);
            && (r.Ok? <==> manager == s.manager && guardian in s.guardians && s.threshold < |s.guardians|)
            && (r.Ok? ==>
                  && r.value == s.(guardians := r.value.guardians)
                  && Members(r.value.guardians) == Members(s.guardians) - {guardian})
    ensures var r := Step(cfg, s, UpdateThreshold(manager, threshold), clock);
            && (r.Ok? <==> manager == s.manager && |s.guardians| < 2 * threshold && threshold <= |s.guardians|)
            && (r.Ok? ==> r.value == s.(threshold := threshold))
  {
    hide Released, SourcedToken, SourcedSol, AddedToken, VerifiedBatch, Configured;
    hide AddGuardianTo, RemoveGuardianFrom, UpdatedThreshold, GuardiansSound, Members;
    AdditionAccepted(s, manager, guardian);
    RemovalAccepted(s, manager, guardian);
    ThresholdAccepted(s, manager, threshold);
  }

  lemma RemovedExact(s: State, guardian: Pubkey)
    requires GuardiansSound(s)
    ensures Members(Without(s.guardians, guardian)) == Members(s.guardians) - {guardian}
    ensures guardian in s.guardians ==> |Without(s.guardians, guardian)| == |s.guardians| - 1
  {
    WithoutMembers(s.guardians, guardian);
    if guardian in s.guardians {
      var p :| 0 <= p < |s.guardians| && s.guardians[p] == guardian;
      WithoutOne(s.guardians, guardian, p);
    }
  }

  /** One transaction keeps the guardian list distinct, the threshold in range and the weighted majority. */
  lemma ActKeepsQuorum(cfg: Config, s: State, tx: Tx, adds: nat, adds': nat)
    requires GuardiansSound(s) && 2 * s.threshold + adds > |s.guardians|
    requires adds' == if !Succeeds(cfg, s, tx) then adds
                      else if tx.action.ix.UpdateThreshold? then 0
                      else if tx.action.ix.AddGuardian? then adds + 1
                      else adds
    ensures var t := Act(cfg, s, tx);
            GuardiansSound(t) && 2 * t.threshold + adds' > |t.guardians|
  {
    hide Step;
    if Succeeds(cfg, s, tx) {
      StepKeepsQuorum(cfg, s, tx.action.ix, tx.clock, adds);
    }
  }

  lemma StepKeepsQuorum(cfg: Config, s: State, ix: Instruction, clock: Clock, adds: nat)
    requires GuardiansSound(s) && 2 * s.threshold + adds > |s.guardians|
    requires Step(cfg, s, ix, clock).Ok?
    ensures var t := Step(cfg, s, ix, clock).value;
            && GuardiansSound(t)
            && 2 * t.threshold + (if ix.UpdateThreshold? then 0 else if ix.AddGuardian? then adds + 1 else adds)
               > |t.guardians|
  {
    hide Released, SourcedToken, SourcedSol, AddedToken, VerifiedBatch;
    match ix
    case AddGuardian(manager, guardian) => AdditionKeepsSound(s, manager, guardian);
    case RemoveGuardian(manager, guardian) => RemovalKeepsSound(s, manager, guardian);
    case UpdateThreshold(manager, threshold) => UpdateGivesMajority(s, manager, threshold);
    case _ => StepFrame(cfg, s, ix, clock);
  }

  /** In every reachable state guardians are distinct and at most 15, the threshold is unset or between 1
      and their number, and it is a majority of them but for the guardians added since it was set. */
  lemma {:induction false} QuorumInvariant(cfg: Config, s0: State, txs: seq<Tx>)
    requires IsInitial(cfg, s0)
    ensures var s := After(cfg, s0, txs);
            GuardiansSound(s) && 2 * s.threshold + Adds(cfg, s0, txs) > |s.guardians|
  {
    if txs != [] {
      var front := txs[..|txs| - 1];
      QuorumInvariant(cfg, s0, front);
      ActKeepsQuorum(cfg, After(cfg, s0, front), txs[|txs| - 1], Adds(cfg, s0, front), Adds(cfg, s0, txs));
    }
  }

  function Members(guardians: seq<Pubkey>): (r: set<Pubkey>)
    ensures forall g :: g in r <==> g in guardians
  {
    set g | g in guardians
  }

  lemma {:induction false} MembersCount(guardians: seq<Pubkey>)
    requires NoDups(guardians)
    ensures |Members(guardians)| == |guardians|
  {
    if guardians != [] {
      var n := |guardians| - 1;
      MembersCount(guardians[..n]);
      assert guardians[n] !in guardians[..n];
      assert Members(guardians) == Members(guardians[..n]) + {guardians[n]};
    }
  }

  lemma OverlapSize(all: set<Pubkey>, a: set<Pubkey>, b: set<Pubkey>)
    requires a <= all && b <= all
    ensures |a * b| >= |a| + |b| - |all|
  {
    assert |a + b| == |a| + |b| - |a * b|;
    var rest := all - (a + b);
    assert all == (a + b) + rest && (a + b) !! rest;
  }

  /** Two threshold-size signer sets share at least 2 * threshold - len guardians; at least one of them
      as long as no guardian was added after the threshold was set. */
  lemma QuorumsOverlap(cfg: Config, s0: State, txs: seq<Tx>, a: set<Pubkey>, b: set<Pubkey>)
    requires IsInitial(cfg, s0)
    requires var s := After(cfg, s0, txs);
             a <= Members(s.guardians) && b <= Members(s.guardians) && |a| >= s.threshold && |b| >= s.threshold
    ensures var s := After(cfg, s0, txs);
            |a * b| >= 2 * s.threshold - |s.guardians| > 0 - (Adds(cfg, s0, txs) as int)
    ensures Adds(cfg, s0, txs) == 0 ==> a * b != {}
  {
    var s := After(cfg, s0, txs);
    QuorumInvariant(cfg, s0, txs);
    MembersCount(s.guardians);
    OverlapSize(Members(s.guardians), a, b);
  }

  ghost predicate QuorumsAlwaysMeet(guardians: seq<Pubkey>, threshold: nat) {
    forall a: set<Pubkey>, b: set<Pubkey> ::
      a <= Members(guardians) && b <= Members(guardians) && |a| >= threshold && |b| >= threshold ==> a * b != {}
  }

  /** Adding guardians can erode the majority: quorums are bound to meet exactly while the threshold
      is more than half of the list. */
  lemma QuorumsMeetExactly(guardians: seq<Pubkey>, threshold: nat)
    requires NoDups(guardians) && threshold <= |guardians|
    ensures QuorumsAlwaysMeet(guardians, threshold) <==> 2 * threshold > |guardians|
  {
    MembersCount(guardians);
    if 2 * threshold > |guardians| {
      forall a: set<Pubkey>, b: set<Pubkey> |
        a <= Members(guardians) && b <= Members(guardians) && |a| >= threshold && |b| >= threshold
        ensures a * b != {}
      {
        OverlapSize(Members(guardians), a, b);
      }
    } else {
      var first, second := guardians[..threshold], guardians[threshold..2 * threshold];
      var a, b := Members(first), Members(second);
      MembersCount(first);
      MembersCount(second);
      forall g | g in a
        ensures g !in b
      {
        var i :| 0 <= i < threshold && guardians[i] == g;
      }
      assert a * b == {};
    }
  }
}
