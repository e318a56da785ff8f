/** Both chains as one system: source events, the claims guardians agree to, the transfers in flight,
    and what holds in every world that too few faulty guardians can reach. */
module Worlds {
  import opened Types
  import opened Payloads
  import opened Ed25519Codec
  import opened Precompile
  import opened BridgeSpec
  import opened Runs
  import opened Quorum
  import opened Approval
  import opened TokenRoles
  import opened Effects

  /** A successful source call, as a guardian sees it. */
  datatype Event =
    | TokenEvent(chain: Chain, sender: Pubkey, recipient: Pubkey, mint: Pubkey, locked: bool, amount: u64,
                 gas: u64, nonce: u64, txId: TxId)
    | SolEvent(chain: Chain, sender: Pubkey, recipient: Pubkey, amount: u64, nonce: u64, txId: TxId)

  /** The two deployments and the Ed25519 oracle. */
  datatype Net = Net(solana: Config, solayer: Config, valid: Oracle)

  /** Both chains; the source events so far; the claims each guardian agreed to sign, which name no chain, as
      the signed bytes name none; and the SOL this handler minted less burned on Solayer. */
  datatype World = World(solana: State, solayer: State, events: seq<Event>, claims: set<(Pubkey, Claim)>, minted: int)

  datatype WorldTx =
    | On(chain: Chain, tx: Tx, txId: TxId)
    | Attest(guardian: Pubkey, claim: Claim)

  function Other(chain: Chain): Chain {
    if chain == Solana then Solayer else Solana
  }

  function Cfg(net: Net, chain: Chain): Config {
    if chain == Solana then net.solana else net.solayer
  }

  function StateOf(w: World, chain: Chain): State {
    if chain == Solana then w.solana else w.solayer
  }

  function With(w: World, chain: Chain, s: State): World {
    if chain == Solana then w.(solana := s) else w.(solayer := s)
  }

  /** The claim pays what the event took, or less, on the other chain: a locked token as its wrapped mint
      there, a burned one as the native token it wraps. */
  ghost predicate Truthful(net: Net, target: Chain, c: Claim, e: Event) {
    && e.chain == Other(target)
    && c.sender == e.sender && c.recipient == e.recipient && c.nonce == e.nonce && c.txId == e.txId
    && c.amount <= e.amount
    && c.TokenClaim? == e.TokenEvent?
    && (c.TokenClaim? ==>
          && c.gas <= e.gas && c.sourceMint == e.mint
          && if e.locked then c.mint == Cfg(net, target).derive(e.mint)
             else Cfg(net, e.chain).derive(c.mint) == e.mint && !Derived(Cfg(net, target), c.mint))
  }

  ghost predicate HasEvent(net: Net, target: Chain, c: Claim, events: seq<Event>) {
    exists i :: 0 <= i < |events| && Truthful(net, target, c, events[i])
  }

  /** A guardian agrees to claims of real events that are headed for a handler that lists it. */
  ghost predicate MayAgree(net: Net, w: World, guardian: Pubkey, c: Claim) {
    exists target: Chain :: guardian in StateOf(w, target).guardians && HasEvent(net, target, c, w.events)
  }

  function EventOf(s: State, ix: Instruction, txId: TxId): Event
    requires ix.SourceToken? || ix.SourceSol?
  {
    match ix
    case SourceToken(signer, mint, amount, recipient, _, gas, _) =>
      TokenEvent(s.chain, signer, recipient, mint, Locks(s, mint), amount, gas, s.nonce, txId)
    case SourceSol(signer, amount, recipient, _) =>
      SolEvent(s.chain, signer, recipient, amount, s.nonce, txId)
  }

  /** The lamports that cross the bridge in a source event. */
  function SolIn(e: Event): u64 {
    if e.SolEvent? then e.amount else e.gas
  }

  /** One transaction on one chain, or a guardian agreeing to a claim. */
  ghost function Next(net: Net, w: World, x: WorldTx): World {
    match x
    case Attest(guardian, claim) =>
      if MayAgree(net, w, guardian, claim) then w.(claims := w.claims + {(guardian, claim)}) else w
    case On(chain, tx, txId) =>
      var cfg, s := Cfg(net, chain), StateOf(w, chain);
      var moved := With(w, chain, Act(cfg, s, tx));
      if !Succeeds(cfg, s, tx) then moved
      else match tx.action.ix
        case SourceToken(_, _, _, _, _, _, _) => WithEvent(moved, EventOf(s, tx.action.ix, txId))
        case SourceSol(_, _, _, _) => WithEvent(moved, EventOf(s, tx.action.ix, txId))
        case Release(_, _, c) => moved.(minted := w.minted + if chain == Solayer then SolOut(c) else 0)
        case _ => moved
  }

  function WithEvent(w: World, e: Event): World {
    w.(events := w.events + [e], minted := w.minted - if e.chain == Solayer then SolIn(e) else 0)
  }

  // -------------------------------------------------------------- in flight

  /** What is at stake: SOL, or the pair of a native mint of one chain and its wrapped mint on the other. */
  datatype Asset = Sol | Pair(home: Chain, native: Pubkey)

  function Wrapped(net: Net, a: Asset): Pubkey
    requires a.Pair?
  {
    Cfg(net, Other(a.home)).derive(a.native)
  }

  /** What an event puts in flight of an asset. */
  function Weight(net: Net, a: Asset, e: Event): nat {
    match a
    case Sol => SolIn(e)
    case Pair(home, native) =>
      if e.TokenEvent? && e.mint == (if e.chain == home then native else Wrapped(net, a)) then e.amount else 0
  }

  /** The proof accounts of both chains. */
  datatype Done = Done(solana: set<Digest>, solayer: set<Digest>)

  function Proofs(w: World): Done {
    Done(w.solana.proofs.Keys, w.solayer.proofs.Keys)
  }

  function Key(net: Net, e: Event): Digest {
    Cfg(net, Other(e.chain)).hash(e.txId)
  }

  /** The event was paid out on the other chain. */
  predicate Settled(net: Net, done: Done, e: Event) {
    if e.chain == Solana then Key(net, e) in done.solayer else Key(net, e) in done.solana
  }

  function InFlight(net: Net, a: Asset, events: seq<Event>, done: Done): nat {
    if events == [] then 0
    else
      var n := |events| - 1;
      InFlight(net, a, events[..n], done) + if Settled(net, done, events[n]) then 0 else Weight(net, a, events[n])
  }

  predicate Grows(d: Done, d': Done) {
    d.solana <= d'.solana && d.solayer <= d'.solayer
  }

  lemma {:induction false} InFlightShrinks(net: Net, a: Asset, events: seq<Event>, d: Done, d': Done)
    requires Grows(d, d')
    ensures InFlight(net, a, events, d') <= InFlight(net, a, events, d)
  {
    if events != [] {
      InFlightShrinks(net, a, events[..|events| - 1], d, d');
    }
  }

  /** Settling an event takes at least its weight out of flight. */
  lemma {:induction false} SettlingDrops(net: Net, a: Asset, events: seq<Event>, d: Done, d': Done, i: nat)
    requires Grows(d, d') && i < |events| && !Settled(net, d, events[i]) && Settled(net, d', events[i])
    ensures InFlight(net, a, events, d') + Weight(net, a, events[i]) <= InFlight(net, a, events, d)
  {
    var n := |events| - 1;
    if i == n {
      InFlightShrinks(net, a, events[..n], d, d');
    } else {
      SettlingDrops(net, a, events[..n], d, d', i);
    }
  }

  /** If it is the only one settled, exactly its weight. */
  lemma {:induction false} SettlingOneDrops(net: Net, a: Asset, events: seq<Event>, d: Done, d': Done, i: nat)
    requires i < |events| && !Settled(net, d, events[i]) && Settled(net, d', events[i])
    requires forall k :: 0 <= k < |events| && k != i ==> Settled(net, d, events[k]) == Settled(net, d', events[k])
    ensures InFlight(net, a, events, d') + Weight(net, a, events[i]) == InFlight(net, a, events, d)
  {
    var n := |events| - 1;
    if i == n {
      InFlightSame(net, a, events[..n], d, d');
    } else {
      SettlingOneDrops(net, a, events[..n], d, d', i);
    }
  }

  lemma {:induction false} InFlightSame(net: Net, a: Asset, events: seq<Event>, d: Done, d': Done)
    requires forall k :: 0 <= k < |events| ==> Settled(net, d, events[k]) == Settled(net, d', events[k])
    ensures InFlight(net, a, events, d') == InFlight(net, a, events, d)
  {
    if events != [] {
      InFlightSame(net, a, events[..|events| - 1], d, d');
    }
  }

  lemma InFlightAppend(net: Net, a: Asset, events: seq<Event>, e: Event, d: Done)
    ensures InFlight(net, a, events + [e], d)
            == InFlight(net, a, events, d) + if Settled(net, d, e) then 0 else Weight(net, a, e)
  {
    assert (events + [e])[..|events|] == events;
  }

  // -------------------------------------------------------------- invariant

  /** A faulty guardian backs anything; an honest one only digests of claims it agreed to. */
  ghost function Vouches(net: Net, w: World, chain: Chain, faulty: set<Pubkey>, d: Digest): Pubkey -> bool {
    (pk: Pubkey) => pk in faulty || Agreed(net, w, chain, pk, d)
  }

  /** `chain` only tells which handler hashes the claim. */
  ghost predicate Agreed(net: Net, w: World, chain: Chain, pk: Pubkey, d: Digest) {
    exists c: Claim :: (pk, c) in w.claims && Cfg(net, chain).hash(Payload(Cfg(net, chain).known.sol, c)) == d
  }

  ghost predicate ChainSound(net: Net, w: World, chain: Chain, faulty: set<Pubkey>) {
    var s := StateOf(w, chain);
    && s.chain == chain
    && GuardiansSound(s) && s.threshold > 0
    && RolesHold(Cfg(net, chain), s)
    && forall d: Digest :: RecordBacked(s, d, Vouches(net, w, chain, faulty, d))
  }

  ghost predicate WorldSound(net: Net, w: World, faulty: set<Pubkey>) {
    && ChainSound(net, w, Solana, faulty)
    && ChainSound(net, w, Solayer, faulty)
    && forall pk: Pubkey, c: Claim :: (pk, c) in w.claims ==>
         HasEvent(net, Solana, c, w.events) || HasEvent(net, Solayer, c, w.events)
  }

  /** The valid signatures by honest keys that an Ed25519 instruction carries are of digests they agreed to. */
  ghost predicate HonestSignatures(net: Net, w: World, chain: Chain, faulty: set<Pubkey>, data: Bytes) {
    LoadedSignatures(data).Ok? ==>
      var sigs := LoadedSignatures(data).value;
      forall i :: (&& 0 <= i < |sigs| && sigs[i].pubkey !in faulty
                   && net.valid(sigs[i].pubkey, sigs[i].signature, sigs[i].msg)) ==>
        Agreed(net, w, chain, sigs[i].pubkey, sigs[i].msg)
  }

  /** The assumptions, on one transaction: recorded signatures passed the Ed25519 program and the honest ones
      among them were agreed to, removals move no recorded signer, and where a release succeeds fewer
      than the threshold of the listed guardians are faulty and the hash collides with no agreed claim. */
  ghost predicate Trusted(net: Net, w: World, x: WorldTx, faulty: set<Pubkey>) {
    x.On? && Succeeds(Cfg(net, x.chain), StateOf(w, x.chain), x.tx) ==>
      var cfg, s, ix := Cfg(net, x.chain), StateOf(w, x.chain), x.tx.action.ix;
      && (ix.VerifySignature? ==>
            PrecompileAccepted(net.valid, x.tx) && HonestSignatures(net, w, x.chain, faulty, ix.previous.data))
      && (ix.RemoveGuardian? ==> forall d: Digest :: HarmlessRemoval(s, d, ix.guardian))
      && (ix.Release? ==>
            && |faulty * Members(s.guardians)| < s.threshold
            && NoCollision(cfg, AllClaims(w), ix.claim))
  }

  ghost function AllClaims(w: World): set<Claim> {
    set p | p in w.claims :: p.1
  }

  /** An honest guardian is among the signers, so the released claim is one that it agreed to. */
  lemma ReleaseWasAgreed(net: Net, w: World, chain: Chain, faulty: set<Pubkey>, operator: Pubkey, d: Digest, c: Claim,
                         clock: Clock) returns (honest: Pubkey)
    requires ChainSound(net, w, chain, faulty)
    requires Released(Cfg(net, chain), StateOf(w, chain), operator, d, c, clock).Ok?
    requires |faulty * Members(StateOf(w, chain).guardians)| < StateOf(w, chain).threshold
    requires NoCollision(Cfg(net, chain), AllClaims(w), c)
    ensures honest in StateOf(w, chain).guardians && honest !in faulty && (honest, c) in w.claims
  {
    var cfg, s := Cfg(net, chain), StateOf(w, chain);
    ReleaseChecks(cfg, s, operator, d, c, clock);
    hide Released;
    var backs := Vouches(net, w, chain, faulty, d);
    assert RecordBacked(s, d, backs);
    SignersCount(s, d, backs);
    var signers := Signers(s, d);
    if signers <= faulty {
      SubsetSize(signers, faulty * Members(s.guardians));
      assert false;
    }
    honest :| honest in signers && honest !in faulty;
    assert backs(honest);
    var a: Claim :| (honest, a) in w.claims && cfg.hash(Payload(cfg.known.sol, a)) == d;
    assert a in AllClaims(w) by {
      assert (honest, a).1 == a;
    }
    SignedFieldsAreUnique(cfg, AllClaims(w), a, c);
  }

  lemma SubsetSize<T>(a: set<T>, b: set<T>)
    requires a <= b
    ensures |a| <= |b|
  {
    var rest := b - a;
    assert b == a + rest;
  }

  // ------------------------------------------------- the invariant is kept

  /** A chain that did not move stays sound when claims are added. */
  lemma IdleChainSound(net: Net, w: World, w': World, chain: Chain, faulty: set<Pubkey>)
    requires ChainSound(net, w, chain, faulty)
    requires StateOf(w', chain) == StateOf(w, chain) && w.claims <= w'.claims
    ensures ChainSound(net, w', chain, faulty)
  {
    hide RolesHold;
    forall d: Digest
      ensures RecordBacked(StateOf(w', chain), d, Vouches(net, w', chain, faulty, d))
    {
      var backs := Vouches(net, w, chain, faulty, d);
      assert RecordBacked(StateOf(w, chain), d, backs);
      SameClaimsVouch(net, w, w', chain, faulty, d);
      BackedWeakens(StateOf(w, chain), d, backs, Vouches(net, w', chain, faulty, d));
    }
  }

  lemma BusyChainSound(net: Net, w: World, w': World, x: WorldTx, faulty: set<Pubkey>)
    requires x.On? && ChainSound(net, w, x.chain, faulty) && Trusted(net, w, x, faulty)
    requires StateOf(w', x.chain) == Act(Cfg(net, x.chain), StateOf(w, x.chain), x.tx) && w'.claims == w.claims
    ensures ChainSound(net, w', x.chain, faulty)
  {
    hide Step, RolesHold, PrecompileAccepted, HonestSignatures, Vouches, BatchBacked;
    var cfg, s := Cfg(net, x.chain), StateOf(w, x.chain);
    ActKeepsChain(cfg, s, x.tx);
    ActKeepsGuardians(cfg, s, x.tx);
    ActKeepsRoles(cfg, s, x.tx);
    forall d: Digest
      ensures RecordBacked(StateOf(w', x.chain), d, Vouches(net, w', x.chain, faulty, d))
    {
      var backs := Vouches(net, w, x.chain, faulty, d);
      assert RecordBacked(s, d, backs);
      if Succeeds(cfg, s, x.tx) {
        BatchVouched(net, w, x, faulty, d);
      }
      ActKeepsBacked(cfg, s, x.tx, d, backs);
      SameClaimsVouch(net, w, w', x.chain, faulty, d);
      BackedWeakens(StateOf(w', x.chain), d, backs, Vouches(net, w', x.chain, faulty, d));
    }
  }

  lemma SameClaimsVouch(net: Net, w: World, w': World, chain: Chain, faulty: set<Pubkey>, d: Digest)
    requires w.claims <= w'.claims
    ensures forall pk: Pubkey :: Vouches(net, w, chain, faulty, d)(pk) ==> Vouches(net, w', chain, faulty, d)(pk)
  {
    assert forall pk: Pubkey :: Agreed(net, w, chain, pk, d) ==> Agreed(net, w', chain, pk, d);
  }

  /** A signature that an honest instruction carries is faulty or was agreed to. */
  lemma PresentedVouched(net: Net, w: World, chain: Chain, faulty: set<Pubkey>, tx: Tx, pk: Pubkey, d: Digest)
    requires PresentedIn(net.valid, tx, pk, d)
    requires HonestSignatures(net, w, chain, faulty, tx.action.ix.previous.data)
    ensures Vouches(net, w, chain, faulty, d)(pk)
  {
    hide LoadedSignatures, Agreed;
  }

  /** The signatures a batch adds come from faulty guardians or from honest ones that agreed. */
  lemma BatchVouched(net: Net, w: World, x: WorldTx, faulty: set<Pubkey>, d: Digest)
    requires x.On? && Trusted(net, w, x, faulty) && Succeeds(Cfg(net, x.chain), StateOf(w, x.chain), x.tx)
    ensures BatchBacked(StateOf(w, x.chain), d, x.tx.action.ix, Vouches(net, w, x.chain, faulty, d))
  {
    hide HonestSignatures, PrecompileAccepted, VerifiedBatch, PresentedIn, Vouches, BatchBacked;
    var cfg, s, ix := Cfg(net, x.chain), StateOf(w, x.chain), x.tx.action.ix;
    if ix.VerifySignature? && ix.msgHash == d {
      var backs := Vouches(net, w, x.chain, faulty, d);
      forall pk: Pubkey | PresentedIn(net.valid, x.tx, pk, d)
        ensures backs(pk)
      {
        PresentedVouched(net, w, x.chain, faulty, x.tx, pk, d);
      }
      BatchBackedBySigners(cfg, net.valid, s, d, x.tx, backs);
    } else {
      OtherBatchBacked(s, d, ix, Vouches(net, w, x.chain, faulty, d));
    }
  }

  lemma OtherBatchBacked(s: State, d: Digest, ix: Instruction, backs: Pubkey -> bool)
    requires !(ix.VerifySignature? && ix.msgHash == d)
    ensures BatchBacked(s, d, ix, backs)
  {
  }

  lemma ActKeepsGuardians(cfg: Config, s: State, tx: Tx)
    requires GuardiansSound(s)
    ensures GuardiansSound(Act(cfg, s, tx))
  {
    hide Step;
    if Succeeds(cfg, s, tx) {
      StepKeepsQuorum(cfg, s, tx.action.ix, tx.clock, MAX_GUARDIAN_COUNT + 1);
    }
  }

  /** What a world transaction can do to the parts that are not a chain's state. */
  lemma NextShape(net: Net, w: World, x: WorldTx)
    ensures var w' := Next(net, w, x);
            && w.claims <= w'.claims
            && w.events <= w'.events
            && (x.Attest? ==> w'.solana == w.solana && w'.solayer == w.solayer && w'.events == w.events)
            && (x.On? ==> && w'.claims == w.claims
                          && StateOf(w', x.chain) == Act(Cfg(net, x.chain), StateOf(w, x.chain), x.tx)
                          && StateOf(w', Other(x.chain)) == StateOf(w, Other(x.chain)))
  {
    hide Step;
  }

  lemma EventsKept(net: Net, chain: Chain, c: Claim, events: seq<Event>, events': seq<Event>)
    requires HasEvent(net, chain, c, events) && events <= events'
    ensures HasEvent(net, chain, c, events')
  {
    var i :| 0 <= i < |events| && Truthful(net, chain, c, events[i]);
    assert events'[i] == events[i];
  }

  lemma NewClaimMayBeAgreed(net: Net, w: World, x: WorldTx, pk: Pubkey, c: Claim)
    requires (pk, c) in Next(net, w, x).claims
    ensures (pk, c) in w.claims || (MayAgree(net, w, pk, c) && Next(net, w, x).events == w.events)
  {
    hide Step, Act, MayAgree;
  }

  /** Every transaction keeps both chains sound, and every agreed claim keeps its event. */
  lemma NextSound(net: Net, w: World, x: WorldTx, faulty: set<Pubkey>)
    requires WorldSound(net, w, faulty) && Trusted(net, w, x, faulty)
    ensures WorldSound(net, Next(net, w, x), faulty)
  {
    hide Step, Act, ChainSound, Trusted, HasEvent;
    var w' := Next(net, w, x);
    NextShape(net, w, x);
    forall chain: Chain
      ensures ChainSound(net, w', chain, faulty)
    {
      assert chain == Solana || chain == Solayer;
      if x.On? && x.chain == chain {
        BusyChainSound(net, w, w', x, faulty);
      } else {
        IdleChainSound(net, w, w', chain, faulty);
      }
    }
    forall pk: Pubkey, c: Claim | (pk, c) in w'.claims
      ensures HasEvent(net, Solana, c, w'.events) || HasEvent(net, Solayer, c, w'.events)
    {
      NewClaimMayBeAgreed(net, w, x, pk, c);
      if (pk, c) in w.claims {
        if HasEvent(net, Solana, c, w.events) {
          EventsKept(net, Solana, c, w.events, w'.events);
        } else {
          EventsKept(net, Solayer, c, w.events, w'.events);
        }
      } else {
        var target: Chain :| pk in StateOf(w, target).guardians && HasEvent(net, target, c, w.events);
        assert target == Solana || target == Solayer;
      }
    }
  }

  // ------------------------------------------------------ where claims go

  /** Every honest guardian is listed on one handler only, the one of its desk. */
  ghost predicate Listed(w: World, faulty: set<Pubkey>, desk: Pubkey -> Chain) {
    forall chain: Chain, pk :: pk in StateOf(w, chain).guardians && pk !in faulty ==> desk(pk) == chain
  }

  /** Every claim of an honest guardian has an event headed for its desk. */
  ghost predicate AtDesk(net: Net, w: World, faulty: set<Pubkey>, desk: Pubkey -> Chain) {
    forall pk: Pubkey, c: Claim :: (pk, c) in w.claims && pk !in faulty ==> HasEvent(net, desk(pk), c, w.events)
  }

  lemma NextAtDesk(net: Net, w: World, x: WorldTx, faulty: set<Pubkey>, desk: Pubkey -> Chain)
    requires Listed(w, faulty, desk) && AtDesk(net, w, faulty, desk)
    ensures AtDesk(net, Next(net, w, x), faulty, desk)
  {
    hide Step, Act, HasEvent;
    var w' := Next(net, w, x);
    NextShape(net, w, x);
    forall pk: Pubkey, c: Claim | (pk, c) in w'.claims && pk !in faulty
      ensures HasEvent(net, desk(pk), c, w'.events)
    {
      NewClaimMayBeAgreed(net, w, x, pk, c);
      if (pk, c) in w.claims {
        EventsKept(net, desk(pk), c, w.events, w'.events);
      }
    }
  }

  /** A release pays a claim of an event headed for its own chain. */
  ghost predicate Headed(net: Net, w: World, x: WorldTx) {
    x.On? && Succeeds(Cfg(net, x.chain), StateOf(w, x.chain), x.tx) && x.tx.action.ix.Release? ==>
      HasEvent(net, x.chain, x.tx.action.ix.claim, w.events)
  }

  lemma DeskHeads(net: Net, w: World, x: WorldTx, faulty: set<Pubkey>, desk: Pubkey -> Chain)
    requires WorldSound(net, w, faulty) && Trusted(net, w, x, faulty)
    requires Listed(w, faulty, desk) && AtDesk(net, w, faulty, desk)
    ensures Headed(net, w, x)
  {
    hide Released, HasEvent, HonestSignatures, RolesHold;
    if x.On? && Succeeds(Cfg(net, x.chain), StateOf(w, x.chain), x.tx) && x.tx.action.ix.Release? {
      var ix := x.tx.action.ix;
      assert x.chain == Solana || x.chain == Solayer;
      var honest := ReleaseWasAgreed(net, w, x.chain, faulty, ix.operator, ix.msgHash, ix.claim, x.tx.clock);
      assert desk(honest) == x.chain;
    }
  }

  /** Without assumptions on where guardians are listed a released claim has an event headed somewhere. */
  lemma ReleaseHeadedSomewhere(net: Net, w: World, x: WorldTx, faulty: set<Pubkey>)
    requires WorldSound(net, w, faulty) && Trusted(net, w, x, faulty)
    requires x.On? && Succeeds(Cfg(net, x.chain), StateOf(w, x.chain), x.tx) && x.tx.action.ix.Release?
    ensures var c := x.tx.action.ix.claim;
            HasEvent(net, x.chain, c, w.events) || HasEvent(net, Other(x.chain), c, w.events)
  {
    hide Released, HasEvent, HonestSignatures, RolesHold;
    var ix := x.tx.action.ix;
    assert x.chain == Solana || x.chain == Solayer;
    var honest := ReleaseWasAgreed(net, w, x.chain, faulty, ix.operator, ix.msgHash, ix.claim, x.tx.clock);
  }
}
