/** Solvency of the bridge: what it holds of an asset against what it issued and what is in flight. */
module Solvency {
  import opened Types
  import opened Payloads
  import opened Ledgers
  import opened BridgeSpec
  import opened Runs
  import opened TokenRoles
  import opened Effects
  import opened Worlds

  /** A native mint of its home chain, wrapped at an address that no other source mint derives. */
  ghost predicate AssetSound(net: Net, a: Asset) {
    a.Pair? ==>
      && !Derived(Cfg(net, a.home), a.native)
      && forall source: Pubkey :: Cfg(net, Other(a.home)).derive(source) == Wrapped(net, a) ==> source == a.native
  }

  /** What the bridge holds of an asset, less what it issued against it: vault less wrapped supply, or the
      Solana handler's lamports less the SOL minted on Solayer. */
  function Held(net: Net, a: Asset, w: World): int {
    match a
    case Sol => Lamports(w.solana.ledger, net.solana.handler) - w.minted
    case Pair(home, native) =>
      Tokens(StateOf(w, home).ledger, Cfg(net, home).handler, native)
      - Supply(StateOf(w, Other(home)).ledger, Wrapped(net, a))
  }

  /** Held beyond the transfers still in flight. */
  function Slack(net: Net, a: Asset, w: World): int {
    Held(net, a, w) - InFlight(net, a, w.events, Proofs(w))
  }

  /** What a release pays out of an asset. */
  function Out(net: Net, a: Asset, chain: Chain, c: Claim): nat {
    match a
    case Sol => SolOut(c)
    case Pair(home, native) =>
      if c.TokenClaim? && c.mint == (if chain == home then native else Wrapped(net, a)) then c.amount else 0
  }

  /** A truthful claim pays out of an asset no more than its event put in flight. */
  lemma OutWithinWeight(net: Net, a: Asset, chain: Chain, c: Claim, e: Event)
    requires AssetSound(net, a) && Truthful(net, chain, c, e)
    ensures Out(net, a, chain, c) <= Weight(net, a, e)
  {
    if a.Pair? && c.TokenClaim? && chain != a.home && c.mint == Wrapped(net, a) {
      assert Derived(Cfg(net, chain), c.mint);
    }
  }

  /** The pair's mints play their roles wherever they have a token record. */
  lemma PairRoles(net: Net, a: Asset, w: World, faulty: set<Pubkey>)
    requires a.Pair? && AssetSound(net, a) && WorldSound(net, w, faulty)
    ensures var s, t, wrapped := StateOf(w, a.home), StateOf(w, Other(a.home)), Wrapped(net, a);
            && (a.native in s.tokens ==> NativeHere(s.chain, s.tokens[a.native]))
            && Locks(s, a.native)
            && (wrapped in t.tokens ==> !NativeHere(t.chain, t.tokens[wrapped]) && Classified(t.tokens, wrapped))
            && (wrapped in t.ledger.mints ==> wrapped in t.tokens && !Locks(t, wrapped))
  {
    assert Derived(Cfg(net, Other(a.home)), Wrapped(net, a));
    assert RoleSound(Cfg(net, a.home), StateOf(w, a.home), a.native);
    assert RoleSound(Cfg(net, Other(a.home)), StateOf(w, Other(a.home)), Wrapped(net, a));
  }

  /** What a world holds of an asset after a release, from the effect of that release. */
  lemma ReleaseHeldSol(net: Net, w: World, chain: Chain, c: Claim, w': World)
    requires Paid(Cfg(net, chain), StateOf(w, chain), StateOf(w', chain).ledger, c)
    requires StateOf(w, chain).chain == chain
    requires StateOf(w', Other(chain)) == StateOf(w, Other(chain))
    requires w'.minted == w.minted + if chain == Solayer then SolOut(c) else 0
    ensures Held(net, Sol, w') >= Held(net, Sol, w) - SolOut(c)
    ensures c.recipient != Cfg(net, chain).handler ==> Held(net, Sol, w') == Held(net, Sol, w) - SolOut(c)
  {
  }

  lemma ReleaseHeldPair(net: Net, a: Asset, w: World, faulty: set<Pubkey>, chain: Chain, c: Claim, w': World)
    requires a.Pair? && AssetSound(net, a) && WorldSound(net, w, faulty)
    requires Paid(Cfg(net, chain), StateOf(w, chain), StateOf(w', chain).ledger, c)
    requires c.TokenClaim? ==> c.mint in StateOf(w, chain).tokens
    requires StateOf(w', Other(chain)) == StateOf(w, Other(chain))
    ensures Held(net, a, w') >= Held(net, a, w) - Out(net, a, chain, c)
    ensures c.recipient != Cfg(net, chain).handler ==> Held(net, a, w') == Held(net, a, w) - Out(net, a, chain, c)
  {
    hide WorldSound, AssetSound, Lamports;
    PairRoles(net, a, w, faulty);
    var l, l' := StateOf(w, chain).ledger, StateOf(w', chain).ledger;
    if chain == a.home {
      assert Tokens(l', Cfg(net, chain).handler, a.native)
          >= Tokens(l, Cfg(net, chain).handler, a.native) - Out(net, a, chain, c);
    } else {
      assert Supply(l', Wrapped(net, a)) == Supply(l, Wrapped(net, a)) + Out(net, a, chain, c);
    }
  }

  /** What a source call takes from its signer: the lamports that cross, the fees, the token. */
  ghost predicate SourceTaken(cfg: Config, s: State, ix: Instruction, t: State)
    requires ix.SourceToken? || ix.SourceSol?
  {
    && ix.signer != cfg.handler
    && match ix
       case SourceToken(signer, mint, amount, _, _, gas, _) =>
         && mint in s.ledger.mints
         && Taken(cfg, s, t.ledger, signer, gas, s.fee + MetadataFee(s, mint), Some((mint, amount)))
       case SourceSol(signer, amount, _, _) => Taken(cfg, s, t.ledger, signer, amount, s.fee, None)
  }

  lemma SourceEffect(cfg: Config, s: State, ix: Instruction, clock: Clock)
    requires (ix.SourceToken? || ix.SourceSol?) && Step(cfg, s, ix, clock).Ok?
    ensures SourceTaken(cfg, s, ix, Step(cfg, s, ix, clock).value)
  {
    hide Taken, SourcedToken, SourcedSol;
    match ix
    case SourceToken(signer, mint, amount, recipient, targetMint, gas, proofNonce) =>
      SourceTokenEffect(cfg, s, signer, mint, amount, recipient, targetMint, gas, proofNonce, clock);
    case SourceSol(signer, amount, recipient, proofNonce) =>
      SourceSolEffect(cfg, s, signer, amount, recipient, proofNonce, clock);
  }

  lemma SourceHeldSol(net: Net, w: World, chain: Chain, ix: Instruction, txId: TxId, w': World)
    requires ix.SourceToken? || ix.SourceSol?
    requires SourceTaken(Cfg(net, chain), StateOf(w, chain), ix, StateOf(w', chain))
    requires StateOf(w, chain).chain == chain
    requires StateOf(w', Other(chain)) == StateOf(w, Other(chain))
    requires w'.minted == w.minted - if chain == Solayer then SolIn(EventOf(StateOf(w, chain), ix, txId)) else 0
    ensures var e := EventOf(StateOf(w, chain), ix, txId);
            && Held(net, Sol, w') >= Held(net, Sol, w) + Weight(net, Sol, e)
            && (w.solana.feeVault != net.solana.handler ==>
                  Held(net, Sol, w') == Held(net, Sol, w) + Weight(net, Sol, e))
  {
  }

  lemma SourceHeldPair(net: Net, a: Asset, w: World, faulty: set<Pubkey>, chain: Chain, ix: Instruction, txId: TxId,
                       w': World)
    requires ix.SourceToken? || ix.SourceSol?
    requires a.Pair? && AssetSound(net, a) && WorldSound(net, w, faulty)
    requires SourceTaken(Cfg(net, chain), StateOf(w, chain), ix, StateOf(w', chain))
    requires StateOf(w, chain).chain == chain
    requires StateOf(w', Other(chain)) == StateOf(w, Other(chain))
    ensures Held(net, a, w') == Held(net, a, w) + Weight(net, a, EventOf(StateOf(w, chain), ix, txId))
  {
    hide WorldSound, AssetSound, Lamports, Locks;
    PairRoles(net, a, w, faulty);
    var l, l' := StateOf(w, chain).ledger, StateOf(w', chain).ledger;
    var weight := Weight(net, a, EventOf(StateOf(w, chain), ix, txId));
    if chain == a.home {
      assert Tokens(l', Cfg(net, chain).handler, a.native) == Tokens(l, Cfg(net, chain).handler, a.native) + weight;
    } else {
      assert Supply(l', Wrapped(net, a)) == Supply(l, Wrapped(net, a)) - weight;
    }
  }

  /** Every other call leaves the balances of the handler and the supplies alone. */
  lemma OtherCallsKeepHeld(net: Net, a: Asset, w: World, chain: Chain, ix: Instruction, clock: Clock, w': World)
    requires Step(Cfg(net, chain), StateOf(w, chain), ix, clock).Ok?
    requires !ix.SourceToken? && !ix.SourceSol? && !ix.Release?
    requires StateOf(w', chain) == Step(Cfg(net, chain), StateOf(w, chain), ix, clock).value
    requires StateOf(w', Other(chain)) == StateOf(w, Other(chain)) && w'.minted == w.minted
    ensures Held(net, a, w') == Held(net, a, w)
  {
    hide Released, SourcedToken, SourcedSol, VerifiedBatch, AddGuardianTo, RemoveGuardianFrom, UpdatedThreshold,
        Configured;
    if !ix.AddToken? {
      StepFrame(Cfg(net, chain), StateOf(w, chain), ix, clock);
    }
  }

  /** Other programs only add to the handler's balances and only burn wrapped tokens. */
  lemma OutsideKeepsHeld(net: Net, a: Asset, w: World, chain: Chain, after: Ledger, w': World)
    requires AssetSound(net, a) && OutsideAllowed(Cfg(net, chain), StateOf(w, chain).ledger, after)
    requires StateOf(w', chain).ledger == after
    requires StateOf(w', Other(chain)) == StateOf(w, Other(chain)) && w'.minted == w.minted
    ensures Held(net, a, w') >= Held(net, a, w)
  {
    if a.Pair? && chain != a.home {
      assert Derived(Cfg(net, chain), Wrapped(net, a));
    }
  }

  // ------------------------------------------------------------- one step

  /** What happens to the events, the proofs and the mint balance in a source call. */
  lemma NextSource(net: Net, w: World, x: WorldTx)
    requires x.On? && Succeeds(Cfg(net, x.chain), StateOf(w, x.chain), x.tx)
    requires x.tx.action.ix.SourceToken? || x.tx.action.ix.SourceSol?
    requires StateOf(w, x.chain).chain == x.chain
    ensures var w', e := Next(net, w, x), EventOf(StateOf(w, x.chain), x.tx.action.ix, x.txId);
            && Step(Cfg(net, x.chain), StateOf(w, x.chain), x.tx.action.ix, x.tx.clock) == Ok(StateOf(w', x.chain))
            && StateOf(w', Other(x.chain)) == StateOf(w, Other(x.chain))
            && w'.events == w.events + [e]
            && Proofs(w') == Proofs(w)
            && w'.minted == w.minted - if x.chain == Solayer then SolIn(e) else 0
  {
    StepFrame(Cfg(net, x.chain), StateOf(w, x.chain), x.tx.action.ix, x.tx.clock);
    hide Step;
  }

  lemma NextRelease(net: Net, w: World, x: WorldTx)
    requires x.On? && Succeeds(Cfg(net, x.chain), StateOf(w, x.chain), x.tx) && x.tx.action.ix.Release?
    ensures var w', ix := Next(net, w, x), x.tx.action.ix;
            var released := Released(Cfg(net, x.chain), StateOf(w, x.chain), ix.operator, ix.msgHash, ix.claim,
                                     x.tx.clock);
            && released == Ok(StateOf(w', x.chain))
            && StateOf(w', Other(x.chain)) == StateOf(w, Other(x.chain))
            && w'.events == w.events
            && w'.minted == w.minted + if x.chain == Solayer then SolOut(ix.claim) else 0
  {
    hide Released;
  }

  lemma NextOther(net: Net, w: World, x: WorldTx)
    requires x.On? && Succeeds(Cfg(net, x.chain), StateOf(w, x.chain), x.tx)
    requires !x.tx.action.ix.SourceToken? && !x.tx.action.ix.SourceSol? && !x.tx.action.ix.Release?
    ensures var w' := Next(net, w, x);
            && Step(Cfg(net, x.chain), StateOf(w, x.chain), x.tx.action.ix, x.tx.clock) == Ok(StateOf(w', x.chain))
            && StateOf(w', Other(x.chain)) == StateOf(w, Other(x.chain))
            && w'.events == w.events && Proofs(w') == Proofs(w) && w'.minted == w.minted
  {
    StepFrame(Cfg(net, x.chain), StateOf(w, x.chain), x.tx.action.ix, x.tx.clock);
    hide Step;
  }

  lemma NextIdle(net: Net, w: World, x: WorldTx)
    requires x.Attest? || !Succeeds(Cfg(net, x.chain), StateOf(w, x.chain), x.tx)
    ensures var w' := Next(net, w, x);
            && w'.events == w.events && w'.minted == w.minted && Proofs(w') == Proofs(w)
            && (x.Attest? || x.tx.action.Call? ==> w'.solana == w.solana && w'.solayer == w.solayer)
            && (x.On? && x.tx.action.Outside? ==>
                  && StateOf(w', Other(x.chain)) == StateOf(w, Other(x.chain))
                  && if OutsideAllowed(Cfg(net, x.chain), StateOf(w, x.chain).ledger, x.tx.action.ledger)
                     then StateOf(w', x.chain) == StateOf(w, x.chain).(ledger := x.tx.action.ledger)
                     else StateOf(w', x.chain) == StateOf(w, x.chain))
  {
    hide Step, OutsideAllowed;
  }

  lemma TruthfulTx(net: Net, chain: Chain, c: Claim, e: Event)
    ensures Truthful(net, chain, c, e) ==> e.chain == Other(chain) && e.txId == c.txId
  {
  }

  /** One new proof account on the chain opposite an event settles that event, and its namesakes. */
  lemma ProofSettles(net: Net, w: World, w': World, chain: Chain, e: Event)
    requires e.chain == Other(chain) && Key(net, e) !in StateOf(w, chain).proofs
    requires StateOf(w', chain).proofs.Keys == StateOf(w, chain).proofs.Keys + {Key(net, e)}
    requires StateOf(w', Other(chain)) == StateOf(w, Other(chain))
    ensures Grows(Proofs(w), Proofs(w'))
    ensures !Settled(net, Proofs(w), e) && Settled(net, Proofs(w'), e)
    ensures forall f: Event :: Settled(net, Proofs(w), f) != Settled(net, Proofs(w'), f) ==>
              f.chain == Other(chain) && Key(net, f) == Key(net, e)
  {
  }

  /** What a release does to both chains, apart from the events it settles. */
  lemma ReleasePays(net: Net, w: World, x: WorldTx)
    requires x.On? && StateOf(w, x.chain).chain == x.chain
    requires Succeeds(Cfg(net, x.chain), StateOf(w, x.chain), x.tx) && x.tx.action.ix.Release?
    ensures var w', c := Next(net, w, x), x.tx.action.ix.claim;
            && Paid(Cfg(net, x.chain), StateOf(w, x.chain), StateOf(w', x.chain).ledger, c)
            && (c.TokenClaim? ==> c.mint in StateOf(w, x.chain).tokens)
            && StateOf(w', Other(x.chain)) == StateOf(w, Other(x.chain))
            && w'.events == w.events
            && w'.minted == w.minted + (if x.chain == Solayer then SolOut(c) else 0)
            && Cfg(net, x.chain).hash(c.txId) !in StateOf(w, x.chain).proofs
            && StateOf(w', x.chain).proofs.Keys == StateOf(w, x.chain).proofs.Keys + {Cfg(net, x.chain).hash(c.txId)}
  {
    hide Next, Step, Released, Paid;
    var ix := x.tx.action.ix;
    NextRelease(net, w, x);
    ReleaseEffect(Cfg(net, x.chain), StateOf(w, x.chain), ix.operator, ix.msgHash, ix.claim, x.tx.clock);
  }

  /** A release of a claim headed for its chain settles an event that the claim describes truthfully and that
      nobody was paid for before, and no event with another transaction hash. */
  lemma ReleaseSettles(net: Net, w: World, x: WorldTx) returns (i: nat)
    requires x.On? && StateOf(w, x.chain).chain == x.chain && Headed(net, w, x)
    requires Succeeds(Cfg(net, x.chain), StateOf(w, x.chain), x.tx) && x.tx.action.ix.Release?
    ensures var w', c := Next(net, w, x), x.tx.action.ix.claim;
            && Grows(Proofs(w), Proofs(w'))
            && i < |w.events| && Truthful(net, x.chain, c, w.events[i])
            && !Settled(net, Proofs(w), w.events[i]) && Settled(net, Proofs(w'), w.events[i])
            && (forall e: Event :: Settled(net, Proofs(w), e) != Settled(net, Proofs(w'), e) ==>
                  e.chain == Other(x.chain) && Key(net, e) == Key(net, w.events[i]))
  {
    hide Next, Step, Paid, Truthful;
    var c := x.tx.action.ix.claim;
    ReleasePays(net, w, x);
    i :| 0 <= i < |w.events| && Truthful(net, x.chain, c, w.events[i]);
    TruthfulTx(net, x.chain, c, w.events[i]);
    ProofSettles(net, w, Next(net, w, x), x.chain, w.events[i]);
  }

  lemma ReleaseHeld(net: Net, a: Asset, w: World, faulty: set<Pubkey>, chain: Chain, c: Claim, w': World)
    requires AssetSound(net, a) && WorldSound(net, w, faulty)
    requires Paid(Cfg(net, chain), StateOf(w, chain), StateOf(w', chain).ledger, c)
    requires c.TokenClaim? ==> c.mint in StateOf(w, chain).tokens
    requires StateOf(w', Other(chain)) == StateOf(w, Other(chain))
    requires w'.minted == w.minted + if chain == Solayer then SolOut(c) else 0
    ensures Held(net, a, w') >= Held(net, a, w) - Out(net, a, chain, c)
    ensures c.recipient != Cfg(net, chain).handler ==> Held(net, a, w') == Held(net, a, w) - Out(net, a, chain, c)
  {
    assert StateOf(w, chain).chain == chain by {
      assert chain == Solana || chain == Solayer;
    }
    hide Paid, WorldSound, AssetSound, Held, Out;
    match a
    case Sol =>
      ReleaseHeldSol(net, w, chain, c, w');
      SolOutIsOut(net, chain, c);
    case Pair(_, _) => ReleaseHeldPair(net, a, w, faulty, chain, c, w');
  }

  lemma SolOutIsOut(net: Net, chain: Chain, c: Claim)
    ensures Out(net, Sol, chain, c) == SolOut(c)
  {
  }

  lemma SourceHeld(net: Net, a: Asset, w: World, faulty: set<Pubkey>, chain: Chain, ix: Instruction, txId: TxId,
                   w': World)
    requires ix.SourceToken? || ix.SourceSol?
    requires AssetSound(net, a) && WorldSound(net, w, faulty)
    requires SourceTaken(Cfg(net, chain), StateOf(w, chain), ix, StateOf(w', chain))
    requires StateOf(w, chain).chain == chain
    requires StateOf(w', Other(chain)) == StateOf(w, Other(chain))
    requires w'.minted == w.minted - if chain == Solayer then SolIn(EventOf(StateOf(w, chain), ix, txId)) else 0
    ensures var weight := Weight(net, a, EventOf(StateOf(w, chain), ix, txId));
            && Held(net, a, w') >= Held(net, a, w) + weight
            && ((a.Sol? ==> w.solana.feeVault != net.solana.handler) ==> Held(net, a, w') == Held(net, a, w) + weight)
  {
    hide SourceTaken, WorldSound, AssetSound, Held, Weight;
    match a
    case Sol => SourceHeldSol(net, w, chain, ix, txId, w');
    case Pair(_, _) => SourceHeldPair(net, a, w, faulty, chain, ix, txId, w');
  }

  /** The release, if it is one, is headed for its chain or pays nothing out of the asset. */
  ghost predicate Covered(net: Net, a: Asset, w: World, x: WorldTx) {
    x.On? && Succeeds(Cfg(net, x.chain), StateOf(w, x.chain), x.tx) && x.tx.action.ix.Release? ==>
      HasEvent(net, x.chain, x.tx.action.ix.claim, w.events) || Out(net, a, x.chain, x.tx.action.ix.claim) == 0
  }

  /** No covered transaction on either chain takes more out of an asset than it takes out of flight. */
  lemma SlackNeverFalls(net: Net, a: Asset, w: World, x: WorldTx, faulty: set<Pubkey>)
    requires AssetSound(net, a) && WorldSound(net, w, faulty) && Covered(net, a, w, x)
    ensures Slack(net, a, Next(net, w, x)) >= Slack(net, a, w)
  {
    var w' := Next(net, w, x);
    assert StateOf(w, Solana).chain == Solana && StateOf(w, Solayer).chain == Solayer;
    if x.Attest? || !Succeeds(Cfg(net, x.chain), StateOf(w, x.chain), x.tx) {
      NextIdle(net, w, x);
      hide Next, WorldSound;
      if x.On? && x.tx.action.Outside?
         && OutsideAllowed(Cfg(net, x.chain), StateOf(w, x.chain).ledger, x.tx.action.ledger) {
        OutsideKeepsHeld(net, a, w, x.chain, x.tx.action.ledger, w');
      }
    } else if x.tx.action.ix.Release? {
      ReleaseSlack(net, a, w, x, faulty);
    } else if x.tx.action.ix.SourceToken? || x.tx.action.ix.SourceSol? {
      SourceSlack(net, a, w, x, faulty);
    } else {
      NextOther(net, w, x);
      hide Next, Step, WorldSound, AssetSound, Held;
      OtherCallsKeepHeld(net, a, w, x.chain, x.tx.action.ix, x.tx.clock, w');
    }
  }

  lemma ReleaseSlack(net: Net, a: Asset, w: World, x: WorldTx, faulty: set<Pubkey>)
    requires AssetSound(net, a) && WorldSound(net, w, faulty) && Covered(net, a, w, x)
    requires x.On? && Succeeds(Cfg(net, x.chain), StateOf(w, x.chain), x.tx) && x.tx.action.ix.Release?
    ensures Slack(net, a, Next(net, w, x)) >= Slack(net, a, w)
  {
    ChainsApart(net, w, x.chain, faulty);
    hide Next, Released, Step, Paid, WorldSound, AssetSound, Held, Out, HasEvent, Truthful, Weight, Settled;
    var w', c := Next(net, w, x), x.tx.action.ix.claim;
    ReleasePays(net, w, x);
    ReleaseHeld(net, a, w, faulty, x.chain, c, w');
    if HasEvent(net, x.chain, c, w.events) {
      var i := ReleaseSettles(net, w, x);
      OutWithinWeight(net, a, x.chain, c, w.events[i]);
      SettlingDrops(net, a, w.events, Proofs(w), Proofs(w'), i);
    } else {
      ProofsGrow(w, w', x.chain);
      InFlightShrinks(net, a, w.events, Proofs(w), Proofs(w'));
    }
  }

  lemma ChainsApart(net: Net, w: World, chain: Chain, faulty: set<Pubkey>)
    requires WorldSound(net, w, faulty)
    ensures StateOf(w, chain).chain == chain
  {
    assert chain == Solana || chain == Solayer;
  }

  lemma ProofsGrow(w: World, w': World, chain: Chain)
    requires StateOf(w, chain).proofs.Keys <= StateOf(w', chain).proofs.Keys
    requires StateOf(w', Other(chain)) == StateOf(w, Other(chain))
    ensures Grows(Proofs(w), Proofs(w'))
  {
  }

  lemma SourceSlack(net: Net, a: Asset, w: World, x: WorldTx, faulty: set<Pubkey>)
    requires AssetSound(net, a) && WorldSound(net, w, faulty)
    requires x.On? && Succeeds(Cfg(net, x.chain), StateOf(w, x.chain), x.tx)
    requires x.tx.action.ix.SourceToken? || x.tx.action.ix.SourceSol?
    requires StateOf(w, x.chain).chain == x.chain
    ensures Slack(net, a, Next(net, w, x)) >= Slack(net, a, w)
  {
    hide Next, Step, SourceTaken, WorldSound, AssetSound, Held, Weight, Settled;
    var w', ix := Next(net, w, x), x.tx.action.ix;
    NextSource(net, w, x);
    SourceEffect(Cfg(net, x.chain), StateOf(w, x.chain), ix, x.tx.clock);
    SourceHeld(net, a, w, faulty, x.chain, ix, x.txId, w');
    InFlightAppend(net, a, w.events, EventOf(StateOf(w, x.chain), ix, x.txId), Proofs(w));
  }

  // ----------------------------------------------------------- whole runs

  ghost function Reached(net: Net, w0: World, xs: seq<WorldTx>): World {
    if xs == [] then w0 else Next(net, Reached(net, w0, xs[..|xs| - 1]), xs[|xs| - 1])
  }

  ghost predicate AllTrusted(net: Net, w0: World, xs: seq<WorldTx>, faulty: set<Pubkey>) {
    forall k :: 0 <= k < |xs| ==> Trusted(net, Reached(net, w0, xs[..k]), xs[k], faulty)
  }

  /** Two freshly initialized handlers, and nothing in flight. */
  ghost predicate Genesis(net: Net, w: World) {
    && IsInitial(net.solana, w.solana) && w.solana.chain == Solana
    && IsInitial(net.solayer, w.solayer) && w.solayer.chain == Solayer
    && w.events == [] && w.claims == {} && w.minted == 0
  }

  lemma GenesisSound(net: Net, w: World, faulty: set<Pubkey>)
    requires Genesis(net, w)
    ensures WorldSound(net, w, faulty)
  {
  }

  lemma TrustedPrefix(net: Net, w0: World, xs: seq<WorldTx>, faulty: set<Pubkey>)
    requires xs != [] && AllTrusted(net, w0, xs, faulty)
    ensures AllTrusted(net, w0, xs[..|xs| - 1], faulty)
    ensures Trusted(net, Reached(net, w0, xs[..|xs| - 1]), xs[|xs| - 1], faulty)
  {
    hide Trusted, Reached;
    var front := xs[..|xs| - 1];
    forall k | 0 <= k < |front|
      ensures Trusted(net, Reached(net, w0, front[..k]), front[k], faulty)
    {
      assert front[..k] == xs[..k];
      assert Trusted(net, Reached(net, w0, xs[..k]), xs[k], faulty);
    }
  }

  lemma {:induction false} ReachedSound(net: Net, w0: World, xs: seq<WorldTx>, faulty: set<Pubkey>)
    requires Genesis(net, w0) && AllTrusted(net, w0, xs, faulty)
    ensures WorldSound(net, Reached(net, w0, xs), faulty)
  {
    hide Trusted, Next, WorldSound, AllTrusted;
    if xs == [] {
      GenesisSound(net, w0, faulty);
    } else {
      TrustedPrefix(net, w0, xs, faulty);
      ReachedSound(net, w0, xs[..|xs| - 1], faulty);
      NextSound(net, Reached(net, w0, xs[..|xs| - 1]), xs[|xs| - 1], faulty);
    }
  }

  ghost predicate AllCovered(net: Net, a: Asset, w0: World, xs: seq<WorldTx>) {
    forall k :: 0 <= k < |xs| ==> Covered(net, a, Reached(net, w0, xs[..k]), xs[k])
  }

  lemma CoveredPrefix(net: Net, a: Asset, w0: World, xs: seq<WorldTx>)
    requires xs != [] && AllCovered(net, a, w0, xs)
    ensures AllCovered(net, a, w0, xs[..|xs| - 1])
    ensures Covered(net, a, Reached(net, w0, xs[..|xs| - 1]), xs[|xs| - 1])
  {
    hide Covered, Reached;
    var front := xs[..|xs| - 1];
    forall k | 0 <= k < |front|
      ensures Covered(net, a, Reached(net, w0, front[..k]), front[k])
    {
      assert front[..k] == xs[..k];
      assert Covered(net, a, Reached(net, w0, xs[..k]), xs[k]);
    }
  }

  lemma {:induction false} SlackHolds(net: Net, a: Asset, w0: World, xs: seq<WorldTx>, faulty: set<Pubkey>)
    requires AssetSound(net, a) && Genesis(net, w0) && AllTrusted(net, w0, xs, faulty) && AllCovered(net, a, w0, xs)
    ensures Slack(net, a, Reached(net, w0, xs)) >= Slack(net, a, w0)
  {
    hide Trusted, Next, WorldSound, AllTrusted, Slack, AssetSound, Genesis, Covered, AllCovered;
    if xs != [] {
      var front := xs[..|xs| - 1];
      TrustedPrefix(net, w0, xs, faulty);
      CoveredPrefix(net, a, w0, xs);
      SlackHolds(net, a, w0, front, faulty);
      ReachedSound(net, w0, front, faulty);
      SlackNeverFalls(net, a, Reached(net, w0, front), xs[|xs| - 1], faulty);
    }
  }

  // -------------------------------------------- keys for one handler each

  /** Over the whole run no honest guardian is listed on both handlers. */
  ghost predicate KeysApart(net: Net, w0: World, xs: seq<WorldTx>, faulty: set<Pubkey>) {
    forall j, k, pk ::
      (0 <= j <= |xs| && 0 <= k <= |xs|
       && pk in Reached(net, w0, xs[..j]).solana.guardians && pk in Reached(net, w0, xs[..k]).solayer.guardians)
      ==> pk in faulty
  }

  /** The handler that lists a guardian at some point of a run. */
  ghost function Desk(net: Net, w0: World, xs: seq<WorldTx>): Pubkey -> Chain {
    (pk: Pubkey) =>
      if exists j :: 0 <= j <= |xs| && pk in Reached(net, w0, xs[..j]).solana.guardians then Solana else Solayer
  }

  lemma DeskLists(net: Net, w0: World, xs: seq<WorldTx>, faulty: set<Pubkey>, k: nat)
    requires KeysApart(net, w0, xs, faulty) && k <= |xs|
    ensures Listed(Reached(net, w0, xs[..k]), faulty, Desk(net, w0, xs))
  {
    hide Reached;
  }

  lemma {:induction false} DeskKept(net: Net, w0: World, xs: seq<WorldTx>, faulty: set<Pubkey>, n: nat)
    requires Genesis(net, w0) && KeysApart(net, w0, xs, faulty) && n <= |xs|
    ensures AtDesk(net, Reached(net, w0, xs[..n]), faulty, Desk(net, w0, xs))
  {
    hide Next, KeysApart, Desk, HasEvent, Listed;
    if n > 0 {
      assert xs[..n][..n - 1] == xs[..n - 1];
      DeskKept(net, w0, xs, faulty, n - 1);
      DeskLists(net, w0, xs, faulty, n - 1);
      NextAtDesk(net, Reached(net, w0, xs[..n - 1]), xs[n - 1], faulty, Desk(net, w0, xs));
    }
  }

  /** Then every release is headed for its own chain. */
  lemma KeysApartHeads(net: Net, w0: World, xs: seq<WorldTx>, faulty: set<Pubkey>, k: nat)
    requires Genesis(net, w0) && AllTrusted(net, w0, xs, faulty) && KeysApart(net, w0, xs, faulty) && k < |xs|
    ensures Headed(net, Reached(net, w0, xs[..k]), xs[k])
  {
    hide Trusted, Reached, KeysApart, Desk, Listed, AtDesk, WorldSound, Headed, Genesis;
    TrustedUpTo(net, w0, xs, faulty, k);
    ReachedSound(net, w0, xs[..k], faulty);
    DeskKept(net, w0, xs, faulty, k);
    DeskLists(net, w0, xs, faulty, k);
    DeskHeads(net, Reached(net, w0, xs[..k]), xs[k], faulty, Desk(net, w0, xs));
  }

  lemma TrustedUpTo(net: Net, w0: World, xs: seq<WorldTx>, faulty: set<Pubkey>, k: nat)
    requires k <= |xs| && AllTrusted(net, w0, xs, faulty)
    ensures AllTrusted(net, w0, xs[..k], faulty)
    ensures k < |xs| ==> Trusted(net, Reached(net, w0, xs[..k]), xs[k], faulty)
  {
    hide Trusted, Reached;
    forall j | 0 <= j < k
      ensures Trusted(net, Reached(net, w0, xs[..k][..j]), xs[..k][j], faulty)
    {
      assert xs[..k][..j] == xs[..j];
      assert Trusted(net, Reached(net, w0, xs[..j]), xs[j], faulty);
    }
  }

  lemma KeysApartCover(net: Net, a: Asset, w0: World, xs: seq<WorldTx>, faulty: set<Pubkey>)
    requires Genesis(net, w0) && AllTrusted(net, w0, xs, faulty) && KeysApart(net, w0, xs, faulty)
    ensures AllCovered(net, a, w0, xs)
  {
    hide Trusted, Reached, KeysApart, HasEvent, Genesis, AllTrusted;
    forall k | 0 <= k < |xs|
      ensures Covered(net, a, Reached(net, w0, xs[..k]), xs[k])
    {
      KeysApartHeads(net, w0, xs, faulty, k);
    }
  }

  // ------------------------------------------- mints for one chain each

  /** The mint a pair goes by on a chain. */
  function MintOn(net: Net, a: Asset, chain: Chain): Pubkey
    requires a.Pair?
  {
    if chain == a.home then a.native else Wrapped(net, a)
  }

  /** A token taken on the event's chain is paid on the other one under an address that names the pair here: a locked
      token is wrapped there at that address, or a burned one wraps a native token there of that address. */
  ghost predicate NamesPair(net: Net, a: Asset, e: Event)
    requires a.Pair? && e.TokenEvent?
  {
    var here, there, mint := Cfg(net, e.chain), Cfg(net, Other(e.chain)), MintOn(net, a, e.chain);
    if e.locked then there.derive(e.mint) == mint else here.derive(mint) == e.mint && !Derived(there, mint)
  }

  /** No transfer was of such a token. */
  ghost predicate MintsApart(net: Net, a: Asset, w: World)
    requires a.Pair?
  {
    forall i :: 0 <= i < |w.events| && w.events[i].TokenEvent? ==> !NamesPair(net, a, w.events[i])
  }

  /** That is exactly when no truthful claim for the other chain names the pair's mint on this one. */
  lemma MintsApartExact(net: Net, a: Asset, w: World)
    requires a.Pair?
    ensures MintsApart(net, a, w) <==>
            forall chain: Chain, c: Claim :: HasEvent(net, Other(chain), c, w.events) && c.TokenClaim? ==>
              c.mint != MintOn(net, a, chain)
  {
    if MintsApart(net, a, w) {
      forall chain: Chain, c: Claim | HasEvent(net, Other(chain), c, w.events) && c.TokenClaim?
        ensures c.mint != MintOn(net, a, chain)
      {
        var i :| 0 <= i < |w.events| && Truthful(net, Other(chain), c, w.events[i]);
        assert w.events[i].chain == chain && !NamesPair(net, a, w.events[i]);
      }
    } else {
      var i :| 0 <= i < |w.events| && w.events[i].TokenEvent? && NamesPair(net, a, w.events[i]);
      var e := w.events[i];
      var c := TokenClaim(e.sender, e.recipient, e.mint, MintOn(net, a, e.chain), e.amount, e.nonce, e.txId, e.gas);
      assert Truthful(net, Other(e.chain), c, e);
      assert HasEvent(net, Other(e.chain), c, w.events);
    }
  }

  /** On handlers that derive the same addresses, as those of one program and one init nonce do, it means: nobody
      locked, on the other chain, a token at the native's own address, nor burned its wrapped token at home. */
  lemma OneDerivationApart(net: Net, a: Asset, w: World)
    requires a.Pair? && AssetSound(net, a)
    requires forall m: Pubkey :: net.solana.derive(m) == net.solayer.derive(m)
    ensures MintsApart(net, a, w) <==>
            forall i :: 0 <= i < |w.events| && w.events[i].TokenEvent? ==>
              var e := w.events[i];
              if e.locked then e.chain == a.home || e.mint != a.native
              else e.chain != a.home || e.mint != Wrapped(net, a)
  {
    assert Derived(Cfg(net, Other(a.home)), Wrapped(net, a));
    OneDerivationDerives(net, a.native);
    OneDerivationDerives(net, Wrapped(net, a));
    forall i | 0 <= i < |w.events| && w.events[i].TokenEvent?
      ensures var e := w.events[i];
              !NamesPair(net, a, e) <==>
              if e.locked then e.chain == a.home || e.mint != a.native
              else e.chain != a.home || e.mint != Wrapped(net, a)
    {
      var e := w.events[i];
      assert Cfg(net, a.home).derive(e.mint) == Cfg(net, Other(a.home)).derive(e.mint);
      assert Derived(Cfg(net, a.home), Cfg(net, a.home).derive(e.mint));
    }
  }

  lemma OneDerivationDerives(net: Net, mint: Pubkey)
    requires forall m: Pubkey :: net.solana.derive(m) == net.solayer.derive(m)
    ensures Derived(net.solana, mint) <==> Derived(net.solayer, mint)
  {
    if Derived(net.solana, mint) {
      var source: Pubkey :| net.solana.derive(source) == mint;
      assert net.solayer.derive(source) == mint;
    }
    if Derived(net.solayer, mint) {
      var source: Pubkey :| net.solayer.derive(source) == mint;
      assert net.solana.derive(source) == mint;
    }
  }

  /** A claim headed for the other chain pays nothing out of such a pair on this one. */
  lemma StrayClaimPaysNothing(net: Net, a: Asset, w: World, chain: Chain, c: Claim)
    requires a.Pair? && MintsApart(net, a, w) && HasEvent(net, Other(chain), c, w.events)
    ensures Out(net, a, chain, c) == 0
  {
    hide MintsApart, HasEvent;
    MintsApartExact(net, a, w);
  }

  lemma MintsApartCover(net: Net, a: Asset, w0: World, xs: seq<WorldTx>, faulty: set<Pubkey>)
    requires Genesis(net, w0) && AllTrusted(net, w0, xs, faulty)
    requires a.Pair? && forall k :: 0 <= k < |xs| ==> MintsApart(net, a, Reached(net, w0, xs[..k]))
    ensures AllCovered(net, a, w0, xs)
  {
    hide Trusted, Reached, HasEvent, Genesis, WorldSound, MintsApart, Out, AllTrusted;
    forall k | 0 <= k < |xs|
      ensures Covered(net, a, Reached(net, w0, xs[..k]), xs[k])
    {
      var w, x := Reached(net, w0, xs[..k]), xs[k];
      TrustedUpTo(net, w0, xs, faulty, k);
      ReachedSound(net, w0, xs[..k], faulty);
      if x.On? && Succeeds(Cfg(net, x.chain), StateOf(w, x.chain), x.tx) && x.tx.action.ix.Release? {
        ReleaseHeadedSomewhere(net, w, x, faulty);
        if !HasEvent(net, x.chain, x.tx.action.ix.claim, w.events) {
          StrayClaimPaysNothing(net, a, w, x.chain, x.tx.action.ix.claim);
        }
      }
    }
  }

  // ------------------------------------------------------------- solvency

  /** What a deployer arranges: guardian keys for one handler each or, for a token pair, mints for one chain each. */
  ghost predicate Separated(net: Net, a: Asset, w0: World, xs: seq<WorldTx>, faulty: set<Pubkey>) {
    || KeysApart(net, w0, xs, faulty)
    || (a.Pair? && forall k :: 0 <= k < |xs| ==> MintsApart(net, a, Reached(net, w0, xs[..k])))
  }

  lemma SeparatedCover(net: Net, a: Asset, w0: World, xs: seq<WorldTx>, faulty: set<Pubkey>)
    requires Genesis(net, w0) && AllTrusted(net, w0, xs, faulty) && Separated(net, a, w0, xs, faulty)
    ensures AllCovered(net, a, w0, xs)
  {
    hide Genesis, AllTrusted, KeysApart, MintsApart, Reached, AllCovered;
    if KeysApart(net, w0, xs, faulty) {
      KeysApartCover(net, a, w0, xs, faulty);
    } else {
      MintsApartCover(net, a, w0, xs, faulty);
    }
  }

  /** Token solvency: in every world too few faulty guardians can reach, the vault of a separated native token
      covers the whole supply of its wrapped token and every transfer of either still in flight. */
  lemma TokenSolvency(net: Net, home: Chain, native: Pubkey, w0: World, xs: seq<WorldTx>, faulty: set<Pubkey>)
    requires AssetSound(net, Pair(home, native)) && Genesis(net, w0) && AllTrusted(net, w0, xs, faulty)
    requires Separated(net, Pair(home, native), w0, xs, faulty)
    ensures var w, pair := Reached(net, w0, xs), Pair(home, native);
            Tokens(StateOf(w, home).ledger, Cfg(net, home).handler, native)
            >= Supply(StateOf(w, Other(home)).ledger, Wrapped(net, pair)) + InFlight(net, pair, w.events, Proofs(w))
  {
    SeparatedCover(net, Pair(home, native), w0, xs, faulty);
    SlackHolds(net, Pair(home, native), w0, xs, faulty);
    assert Derived(Cfg(net, Other(home)), Wrapped(net, Pair(home, native)));
    hide Reached, AllTrusted;
  }

  /** SOL solvency, when no honest guardian is listed on both handlers: the Solana handler has gained at least what
      was minted, less burned, on Solayer and every amount and gas in flight either way. */
  lemma SolSolvency(net: Net, w0: World, xs: seq<WorldTx>, faulty: set<Pubkey>)
    requires Genesis(net, w0) && AllTrusted(net, w0, xs, faulty) && KeysApart(net, w0, xs, faulty)
    ensures var w := Reached(net, w0, xs);
            Lamports(w.solana.ledger, net.solana.handler) - Lamports(w0.solana.ledger, net.solana.handler)
            >= w.minted + InFlight(net, Sol, w.events, Proofs(w))
  {
    KeysApartCover(net, Sol, w0, xs, faulty);
    SlackHolds(net, Sol, w0, xs, faulty);
    hide Reached, AllTrusted;
  }

  // ----------------------------------------------- the exact step condition

  /** No event headed for this chain has the claim's transaction without being the claim's event. */
  ghost predicate TxIdentifies(net: Net, w: World, chain: Chain, c: Claim) {
    forall i :: (&& 0 <= i < |w.events| && w.events[i].chain == Other(chain)
                 && Key(net, w.events[i]) == Cfg(net, chain).hash(c.txId)) ==>
      Truthful(net, chain, c, w.events[i])
  }

  /** A release that pays something out of an asset keeps the slack if and only if its claim's event is headed for
      the releasing chain; otherwise the slack falls by the whole payout. */
  lemma ReleaseSlackExact(net: Net, a: Asset, w: World, x: WorldTx, faulty: set<Pubkey>)
    requires AssetSound(net, a) && WorldSound(net, w, faulty)
    requires x.On? && Succeeds(Cfg(net, x.chain), StateOf(w, x.chain), x.tx) && x.tx.action.ix.Release?
    requires x.tx.action.ix.claim.recipient != Cfg(net, x.chain).handler
    requires Out(net, a, x.chain, x.tx.action.ix.claim) > 0 && TxIdentifies(net, w, x.chain, x.tx.action.ix.claim)
    ensures var c, slack, slack' := x.tx.action.ix.claim, Slack(net, a, w), Slack(net, a, Next(net, w, x));
            && (slack' >= slack <==> HasEvent(net, x.chain, c, w.events))
            && (!HasEvent(net, x.chain, c, w.events) ==> slack' == slack - Out(net, a, x.chain, c))
  {
    var c := x.tx.action.ix.claim;
    if HasEvent(net, x.chain, c, w.events) {
      ReleaseSlack(net, a, w, x, faulty);
    } else {
      StraySlack(net, a, w, x, faulty);
    }
    hide Next, Out, Slack, WorldSound, AssetSound, HasEvent;
  }

  lemma StraySlack(net: Net, a: Asset, w: World, x: WorldTx, faulty: set<Pubkey>)
    requires AssetSound(net, a) && WorldSound(net, w, faulty)
    requires x.On? && Succeeds(Cfg(net, x.chain), StateOf(w, x.chain), x.tx) && x.tx.action.ix.Release?
    requires x.tx.action.ix.claim.recipient != Cfg(net, x.chain).handler
    requires TxIdentifies(net, w, x.chain, x.tx.action.ix.claim)
    requires !HasEvent(net, x.chain, x.tx.action.ix.claim, w.events)
    ensures Slack(net, a, Next(net, w, x)) == Slack(net, a, w) - Out(net, a, x.chain, x.tx.action.ix.claim)
  {
    ChainsApart(net, w, x.chain, faulty);
    hide Next, Step, Paid, WorldSound, AssetSound, Held, Out, Weight, Settled, HasEvent, TxIdentifies;
    var w', c := Next(net, w, x), x.tx.action.ix.claim;
    ReleasePays(net, w, x);
    ReleaseHeld(net, a, w, faulty, x.chain, c, w');
    StrayProofSettlesNone(net, w, w', x.chain, c);
    InFlightSame(net, a, w.events, Proofs(w), Proofs(w'));
  }

  lemma StrayProofSettlesNone(net: Net, w: World, w': World, chain: Chain, c: Claim)
    requires TxIdentifies(net, w, chain, c) && !HasEvent(net, chain, c, w.events)
    requires StateOf(w', chain).proofs.Keys == StateOf(w, chain).proofs.Keys + {Cfg(net, chain).hash(c.txId)}
    requires StateOf(w', Other(chain)) == StateOf(w, Other(chain))
    ensures forall k :: 0 <= k < |w.events| ==>
              Settled(net, Proofs(w), w.events[k]) == Settled(net, Proofs(w'), w.events[k])
  {
    hide Truthful;
    assert forall k :: 0 <= k < |w.events| ==> !Truthful(net, chain, c, w.events[k]);
  }
}
