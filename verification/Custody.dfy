/** When solvency is an equality, and the rent minimum that is never touched. */
module Custody {
  import opened Types
  import opened Payloads
  import opened Ledgers
  import opened BridgeSpec
  import opened Runs
  import opened TokenRoles
  import opened Effects
  import opened Worlds
  import opened Solvency

  /** Two transactions that neither handler's hash confuses. */
  ghost predicate HashedApart(net: Net, txId: TxId, other: TxId) {
    forall chain: Chain :: Cfg(net, chain).hash(txId) != Cfg(net, chain).hash(other)
  }

  /** No earlier transfer shares the transaction, and it has not been paid out. */
  ghost predicate FreshTx(net: Net, w: World, chain: Chain, txId: TxId) {
    && Cfg(net, Other(chain)).hash(txId) !in StateOf(w, Other(chain)).proofs
    && forall i :: 0 <= i < |w.events| ==> HashedApart(net, w.events[i].txId, txId)
  }

  /** Other programs neither pay the handler this asset nor burn its wrapped token. */
  predicate Undisturbed(net: Net, a: Asset, chain: Chain, before: Ledger, after: Ledger) {
    match a
    case Sol => chain == Solana ==> Lamports(after, net.solana.handler) == Lamports(before, net.solana.handler)
    case Pair(home, native) =>
      if chain == home then
        Tokens(after, Cfg(net, home).handler, native) == Tokens(before, Cfg(net, home).handler, native)
      else Supply(after, Wrapped(net, a)) == Supply(before, Wrapped(net, a))
  }

  /** One source event for each transaction, claims for the full amount, no payout or fee to the handler itself
      and no donations or outside burns. */
  ghost predicate Faithful(net: Net, a: Asset, w: World, x: WorldTx) {
    match x
    case Attest(_, c) => Full(net, w, c)
    case On(chain, tx, txId) =>
      match tx.action
      case Outside(after) => Undisturbed(net, a, chain, StateOf(w, chain).ledger, after)
      case Call(ix) =>
        && (ix.SourceToken? || ix.SourceSol? ==>
              FreshTx(net, w, chain, txId) && (a.Sol? ==> w.solana.feeVault != net.solana.handler))
        && (ix.Release? ==> ix.claim.recipient != Cfg(net, chain).handler)
  }

  /** The claim is for the whole of any event it is truthful about. */
  ghost predicate Full(net: Net, w: World, c: Claim) {
    forall chain: Chain, i :: 0 <= i < |w.events| && Truthful(net, chain, c, w.events[i]) ==>
      c.amount == w.events[i].amount && SolOut(c) == SolIn(w.events[i])
  }

  /** Events are told apart by their transactions, locks happen to native tokens only, claims are full. */
  ghost predicate Orderly(net: Net, w: World) {
    && (forall i, j :: 0 <= i < j < |w.events| ==> HashedApart(net, w.events[i].txId, w.events[j].txId))
    && (forall i :: 0 <= i < |w.events| && w.events[i].TokenEvent? ==>
          (w.events[i].locked <==> !Derived(Cfg(net, w.events[i].chain), w.events[i].mint)))
    && (forall pk: Pubkey, c: Claim :: (pk, c) in w.claims ==> Full(net, w, c))
  }

  /** A full claim pays out of every asset exactly what its event put in flight. */
  lemma FullOutIsWeight(net: Net, a: Asset, chain: Chain, c: Claim, e: Event)
    requires AssetSound(net, a) && Truthful(net, chain, c, e)
    requires c.amount == e.amount && SolOut(c) == SolIn(e)
    requires e.TokenEvent? ==> (e.locked <==> !Derived(Cfg(net, e.chain), e.mint))
    ensures Out(net, a, chain, c) == Weight(net, a, e)
  {
    if a.Pair? && e.TokenEvent? {
      assert Derived(Cfg(net, Other(a.home)), Wrapped(net, a));
      assert !e.locked ==> Derived(Cfg(net, e.chain), e.mint);
    }
  }

  /** A locked mint is not a derived one, and the other way round. */
  lemma EventRole(net: Net, w: World, faulty: set<Pubkey>, x: WorldTx)
    requires WorldSound(net, w, faulty) && x.On? && Succeeds(Cfg(net, x.chain), StateOf(w, x.chain), x.tx)
    requires x.tx.action.ix.SourceToken?
    ensures Locks(StateOf(w, x.chain), x.tx.action.ix.mint) <==> !Derived(Cfg(net, x.chain), x.tx.action.ix.mint)
  {
    assert x.chain == Solana || x.chain == Solayer;
    SourceEffect(Cfg(net, x.chain), StateOf(w, x.chain), x.tx.action.ix, x.tx.clock);
    assert RoleSound(Cfg(net, x.chain), StateOf(w, x.chain), x.tx.action.ix.mint);
    hide Step, Taken, Derived;
  }

  lemma AppendKeepsOrder(net: Net, w: World, faulty: set<Pubkey>, e: Event, w': World)
    requires Orderly(net, w) && WorldSound(net, w, faulty)
    requires w'.events == w.events + [e] && w'.claims == w.claims
    requires FreshTx(net, w, e.chain, e.txId)
    requires e.TokenEvent? ==> (e.locked <==> !Derived(Cfg(net, e.chain), e.mint))
    ensures Orderly(net, w')
  {
    hide ChainSound, Derived;
    var n := |w.events|;
    forall i, j | 0 <= i < j < |w'.events|
      ensures HashedApart(net, w'.events[i].txId, w'.events[j].txId)
    {
      assert w'.events[i] == w.events[i];
    }
    forall pk: Pubkey, c: Claim | (pk, c) in w'.claims
      ensures Full(net, w', c)
    {
      var home := if HasEvent(net, Solana, c, w.events) then Solana else Solayer;
      var k :| 0 <= k < n && Truthful(net, home, c, w.events[k]);
      assert Full(net, w, c);
      assert HashedApart(net, w.events[k].txId, e.txId);
      assert forall chain: Chain :: !Truthful(net, chain, c, e);
    }
  }

  lemma NextOrderly(net: Net, a: Asset, w: World, x: WorldTx, faulty: set<Pubkey>)
    requires WorldSound(net, w, faulty) && Orderly(net, w) && Faithful(net, a, w, x)
    ensures Orderly(net, Next(net, w, x))
  {
    hide Step, Derived, Truthful, HashedApart;
    var w' := Next(net, w, x);
    NextShape(net, w, x);
    assert StateOf(w, Solana).chain == Solana && StateOf(w, Solayer).chain == Solayer;
    if x.On? && Succeeds(Cfg(net, x.chain), StateOf(w, x.chain), x.tx)
       && (x.tx.action.ix.SourceToken? || x.tx.action.ix.SourceSol?) {
      NextSource(net, w, x);
      if x.tx.action.ix.SourceToken? {
        EventRole(net, w, faulty, x);
      }
      AppendKeepsOrder(net, w, faulty, EventOf(StateOf(w, x.chain), x.tx.action.ix, x.txId), w');
    } else {
      assert w'.events == w.events;
    }
  }

  /** A faithful transaction leaves the slack exactly where it was. */
  lemma SlackUnmoved(net: Net, a: Asset, w: World, x: WorldTx, faulty: set<Pubkey>)
    requires AssetSound(net, a) && WorldSound(net, w, faulty) && Trusted(net, w, x, faulty)
    requires Orderly(net, w) && Faithful(net, a, w, x) && Covered(net, a, w, x)
    ensures Slack(net, a, Next(net, w, x)) == Slack(net, a, w)
  {
    var w' := Next(net, w, x);
    assert StateOf(w, Solana).chain == Solana && StateOf(w, Solayer).chain == Solayer;
    if x.Attest? || !Succeeds(Cfg(net, x.chain), StateOf(w, x.chain), x.tx) {
      NextIdle(net, w, x);
      hide Next, WorldSound, OutsideAllowed, Orderly;
    } else if x.tx.action.ix.Release? {
      hide Next, Slack, HasEvent, Orderly, WorldSound, Trusted, AssetSound;
      if HasEvent(net, x.chain, x.tx.action.ix.claim, w.events) {
        ReleaseUnmoved(net, a, w, x, faulty);
      } else {
        StrayIdentified(net, w, x, faulty);
        StraySlack(net, a, w, x, faulty);
      }
    } else if x.tx.action.ix.SourceToken? || x.tx.action.ix.SourceSol? {
      SourceUnmoved(net, a, w, x, faulty);
    } else {
      NextOther(net, w, x);
      hide Next, Step, WorldSound, AssetSound, Held;
      OtherCallsKeepHeld(net, a, w, x.chain, x.tx.action.ix, x.tx.clock, w');
    }
  }

  lemma ReleasedIsFull(net: Net, w: World, x: WorldTx, faulty: set<Pubkey>)
    requires WorldSound(net, w, faulty) && Trusted(net, w, x, faulty) && Orderly(net, w)
    requires x.On? && Succeeds(Cfg(net, x.chain), StateOf(w, x.chain), x.tx) && x.tx.action.ix.Release?
    ensures Full(net, w, x.tx.action.ix.claim)
  {
    hide Released, HasEvent, HonestSignatures, RolesHold, Full;
    var ix := x.tx.action.ix;
    assert x.chain == Solana || x.chain == Solayer;
    var honest := ReleaseWasAgreed(net, w, x.chain, faulty, ix.operator, ix.msgHash, ix.claim, x.tx.clock);
  }

  /** In an orderly world what has another key than event `i` is another event. */
  lemma OtherEventsStay(net: Net, w: World, w': World, i: nat)
    requires Orderly(net, w) && i < |w.events|
    requires forall e: Event :: Settled(net, Proofs(w), e) != Settled(net, Proofs(w'), e) ==>
               e.chain == w.events[i].chain && Key(net, e) == Key(net, w.events[i])
    ensures forall k :: 0 <= k < |w.events| && k != i ==>
              Settled(net, Proofs(w), w.events[k]) == Settled(net, Proofs(w'), w.events[k])
  {
    hide Settled, Full, Derived;
    forall k | 0 <= k < |w.events| && k != i
      ensures Settled(net, Proofs(w), w.events[k]) == Settled(net, Proofs(w'), w.events[k])
    {
      assert HashedApart(net, w.events[if k < i then k else i].txId, w.events[if k < i then i else k].txId);
    }
  }

  /** No event headed for the chain has the transaction of a stray claim, which is that of an event from this chain. */
  lemma StrayIdentified(net: Net, w: World, x: WorldTx, faulty: set<Pubkey>)
    requires WorldSound(net, w, faulty) && Trusted(net, w, x, faulty) && Orderly(net, w)
    requires x.On? && Succeeds(Cfg(net, x.chain), StateOf(w, x.chain), x.tx) && x.tx.action.ix.Release?
    requires !HasEvent(net, x.chain, x.tx.action.ix.claim, w.events)
    ensures TxIdentifies(net, w, x.chain, x.tx.action.ix.claim)
  {
    hide WorldSound, Trusted, Full, Derived, Step;
    var c := x.tx.action.ix.claim;
    ReleaseHeadedSomewhere(net, w, x, faulty);
    var i :| 0 <= i < |w.events| && Truthful(net, Other(x.chain), c, w.events[i]);
    TruthfulTx(net, Other(x.chain), c, w.events[i]);
    forall k | 0 <= k < |w.events| && w.events[k].chain == Other(x.chain)
      ensures Key(net, w.events[k]) != Cfg(net, x.chain).hash(c.txId)
    {
      assert k != i;
      assert HashedApart(net, w.events[if k < i then k else i].txId, w.events[if k < i then i else k].txId);
    }
  }

  lemma ReleaseUnmoved(net: Net, a: Asset, w: World, x: WorldTx, faulty: set<Pubkey>)
    requires AssetSound(net, a) && WorldSound(net, w, faulty) && Trusted(net, w, x, faulty)
    requires Orderly(net, w) && Faithful(net, a, w, x) && Headed(net, w, x)
    requires x.On? && Succeeds(Cfg(net, x.chain), StateOf(w, x.chain), x.tx) && x.tx.action.ix.Release?
    ensures Slack(net, a, Next(net, w, x)) == Slack(net, a, w)
  {
    ChainsApart(net, w, x.chain, faulty);
    hide Next, Step, Paid, WorldSound, Trusted, AssetSound, Held, Out, Weight, Settled, Derived, HasEvent;
    var w', c := Next(net, w, x), x.tx.action.ix.claim;
    ReleasePays(net, w, x);
    var i := ReleaseSettles(net, w, x);
    ReleasedIsFull(net, w, x, faulty);
    ReleaseHeld(net, a, w, faulty, x.chain, c, w');
    FullOutIsWeight(net, a, x.chain, c, w.events[i]);
    TruthfulTx(net, x.chain, c, w.events[i]);
    OtherEventsStay(net, w, w', i);
    SettlingOneDrops(net, a, w.events, Proofs(w), Proofs(w'), i);
  }

  lemma SourceUnmoved(net: Net, a: Asset, w: World, x: WorldTx, faulty: set<Pubkey>)
    requires AssetSound(net, a) && WorldSound(net, w, faulty) && Faithful(net, a, w, x)
    requires x.On? && Succeeds(Cfg(net, x.chain), StateOf(w, x.chain), x.tx)
    requires x.tx.action.ix.SourceToken? || x.tx.action.ix.SourceSol?
    requires StateOf(w, x.chain).chain == x.chain
    ensures Slack(net, a, Next(net, w, x)) == Slack(net, a, w)
  {
    hide Next, Step, SourceTaken, WorldSound, AssetSound, Held, Weight;
    var w', ix := Next(net, w, x), x.tx.action.ix;
    var e := EventOf(StateOf(w, x.chain), ix, x.txId);
    NextSource(net, w, x);
    SourceEffect(Cfg(net, x.chain), StateOf(w, x.chain), ix, x.tx.clock);
    SourceHeld(net, a, w, faulty, x.chain, ix, x.txId, w');
    InFlightAppend(net, a, w.events, e, Proofs(w));
    assert !Settled(net, Proofs(w), e);
  }

  ghost predicate AllFaithful(net: Net, a: Asset, w0: World, xs: seq<WorldTx>) {
    forall k :: 0 <= k < |xs| ==> Faithful(net, a, Reached(net, w0, xs[..k]), xs[k])
  }

  lemma FaithfulPrefix(net: Net, a: Asset, w0: World, xs: seq<WorldTx>)
    requires xs != [] && AllFaithful(net, a, w0, xs)
    ensures AllFaithful(net, a, w0, xs[..|xs| - 1])
    ensures Faithful(net, a, Reached(net, w0, xs[..|xs| - 1]), xs[|xs| - 1])
  {
    hide Faithful, Reached;
    var front := xs[..|xs| - 1];
    forall k | 0 <= k < |front|
      ensures Faithful(net, a, Reached(net, w0, front[..k]), front[k])
    {
      assert front[..k] == xs[..k];
      assert Faithful(net, a, Reached(net, w0, xs[..k]), xs[k]);
    }
  }

  lemma GenesisOrderly(net: Net, w: World)
    requires Genesis(net, w)
    ensures Orderly(net, w)
  {
  }

  lemma {:induction false} CustodyKept(net: Net, a: Asset, w0: World, xs: seq<WorldTx>, faulty: set<Pubkey>)
    requires AssetSound(net, a) && Genesis(net, w0)
    requires AllTrusted(net, w0, xs, faulty) && AllFaithful(net, a, w0, xs) && AllCovered(net, a, w0, xs)
    ensures Orderly(net, Reached(net, w0, xs))
    ensures Slack(net, a, Reached(net, w0, xs)) == Slack(net, a, w0)
  {
    hide Trusted, Next, WorldSound, AllTrusted, AllFaithful, Faithful, Slack, AssetSound, Genesis, Orderly,
        AllCovered, Covered;
    if xs == [] {
      GenesisOrderly(net, w0);
    } else {
      var front := xs[..|xs| - 1];
      TrustedPrefix(net, w0, xs, faulty);
      FaithfulPrefix(net, a, w0, xs);
      CoveredPrefix(net, a, w0, xs);
      CustodyKept(net, a, w0, front, faulty);
      ReachedSound(net, w0, front, faulty);
      SlackUnmoved(net, a, Reached(net, w0, front), xs[|xs| - 1], faulty);
      NextOrderly(net, a, Reached(net, w0, front), xs[|xs| - 1], faulty);
    }
  }

  /** Exact custody: when guardian keys, or the pair's mints, are apart and every transaction is faithful, what an
      asset's holdings exceed its liabilities by is what they exceeded them by at the start, to the last unit. */
  lemma CustodyExact(net: Net, a: Asset, w0: World, xs: seq<WorldTx>, faulty: set<Pubkey>)
    requires AssetSound(net, a) && Genesis(net, w0)
    requires AllTrusted(net, w0, xs, faulty) && Separated(net, a, w0, xs, faulty) && AllFaithful(net, a, w0, xs)
    ensures Slack(net, a, Reached(net, w0, xs)) == Slack(net, a, w0)
  {
    hide Reached, Genesis, AllTrusted, Separated, AllFaithful, AllCovered, Slack, AssetSound;
    SeparatedCover(net, a, w0, xs, faulty);
    CustodyKept(net, a, w0, xs, faulty);
  }

  // ------------------------------------------------------------------- rent

  lemma StepKeepsRent(cfg: Config, s: State, ix: Instruction, clock: Clock)
    requires s.chain == Solana && Lamports(s.ledger, cfg.handler) >= cfg.rent && Step(cfg, s, ix, clock).Ok?
    ensures Lamports(Step(cfg, s, ix, clock).value.ledger, cfg.handler) >= cfg.rent
  {
    hide Released, SourcedToken, SourcedSol, VerifiedBatch;
    match ix
    case Release(operator, d, c) => ReleaseEffect(cfg, s, operator, d, c, clock);
    case SourceToken(_, _, _, _, _, _, _) => SourceEffect(cfg, s, ix, clock);
    case SourceSol(_, _, _, _) => SourceEffect(cfg, s, ix, clock);
    case AddToken(_, _, _) =>
    case _ => StepFrame(cfg, s, ix, clock);
  }

  /** The Solana handler never falls below its rent minimum, whoever is paid, itself included. */
  lemma {:induction false} RentKept(cfg: Config, s0: State, txs: seq<Tx>)
    requires IsInitial(cfg, s0) && s0.chain == Solana && Lamports(s0.ledger, cfg.handler) >= cfg.rent
    ensures var s := After(cfg, s0, txs); s.chain == Solana && Lamports(s.ledger, cfg.handler) >= cfg.rent
  {
    hide Step, IsInitial;
    if txs != [] {
      var front, tx := txs[..|txs| - 1], txs[|txs| - 1];
      RentKept(cfg, s0, front);
      var s := After(cfg, s0, front);
      ActKeepsChain(cfg, s, tx);
      if Succeeds(cfg, s, tx) {
        StepKeepsRent(cfg, s, tx.action.ix, tx.clock);
      }
    }
  }
}
