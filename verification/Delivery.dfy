/** Solvency put to use: a transfer in flight can always be completed. */
module Delivery {
  import opened Types
  import opened Payloads
  import opened Ledgers
  import opened BridgeSpec
  import opened Quorum
  import opened TokenRoles
  import opened Effects
  import opened Worlds
  import opened Solvency
  import opened Reachability

  lemma {:induction false} PartOfFlight(net: Net, a: Asset, events: seq<Event>, done: Done, i: nat)
    requires i < |events| && !Settled(net, done, events[i])
    ensures Weight(net, a, events[i]) <= InFlight(net, a, events, done)
  {
    if i < |events| - 1 {
      PartOfFlight(net, a, events[..|events| - 1], done, i);
    }
  }

  /** The token program's and the runtime's own accounting, for the accounts a payout touches: two balances
      are part of one supply, and all lamports fit in 64 bits. */
  predicate Accounted(cfg: Config, chain: Chain, l: Ledger, c: Claim) {
    && (c.recipient != cfg.handler ==>
          Lamports(l, c.recipient) + (if chain == Solana then Lamports(l, cfg.handler) else SolOut(c)) <= U64_MAX)
    && (c.recipient == cfg.handler && chain == Solayer ==> Lamports(l, c.recipient) + SolOut(c) <= U64_MAX)
    && (c.TokenClaim? ==>
          && Tokens(l, c.recipient, c.mint) <= Supply(l, c.mint)
          && (c.recipient != cfg.handler ==>
                Tokens(l, c.recipient, c.mint) + Tokens(l, cfg.handler, c.mint) <= Supply(l, c.mint)))
  }

  /** The claim pays out a pair on the chain where the other mint of that pair was taken. */
  ghost predicate ForPair(net: Net, a: Asset, target: Chain, c: Claim) {
    c.TokenClaim? ==> a.Pair? && AssetSound(net, a) && c.mint == MintOn(net, a, target)
  }

  /** A truthful claim of an event that is still in flight. */
  ghost predicate Pending(net: Net, w: World, target: Chain, i: nat, c: Claim) {
    i < |w.events| && !Settled(net, Proofs(w), w.events[i]) && Truthful(net, target, c, w.events[i])
  }

  /** The vault holds the tokens, or the supply has room to mint them. */
  lemma TokensSuffice(net: Net, a: Asset, target: Chain, w0: World, xs: seq<WorldTx>, faulty: set<Pubkey>, i: nat,
                      c: Claim)
    requires Genesis(net, w0) && AllTrusted(net, w0, xs, faulty)
    requires Pending(net, Reached(net, w0, xs), target, i, c)
    requires c.TokenClaim? && Separated(net, a, w0, xs, faulty) && ForPair(net, a, target, c)
    ensures var l := StateOf(Reached(net, w0, xs), target).ledger;
            if target == a.home then c.amount <= Tokens(l, Cfg(net, target).handler, c.mint)
            else Supply(l, c.mint) + c.amount <= U64_MAX
  {
    hide Reached, AllTrusted, Genesis, Truthful, Settled, Weight, AssetSound, Separated;
    var w := Reached(net, w0, xs);
    TokenSolvency(net, a.home, a.native, w0, xs, faulty);
    PartOfFlight(net, a, w.events, Proofs(w), i);
    OutWithinWeight(net, a, target, c, w.events[i]);
  }

  /** The Solana handler holds the lamports and its rent. */
  lemma LamportsSuffice(net: Net, w0: World, xs: seq<WorldTx>, faulty: set<Pubkey>, i: nat, c: Claim)
    requires Genesis(net, w0) && AllTrusted(net, w0, xs, faulty) && KeysApart(net, w0, xs, faulty)
    requires Lamports(w0.solana.ledger, net.solana.handler) >= net.solana.rent
    requires Pending(net, Reached(net, w0, xs), Solana, i, c) && Reached(net, w0, xs).minted >= 0
    ensures net.solana.rent + SolOut(c) <= Lamports(Reached(net, w0, xs).solana.ledger, net.solana.handler)
  {
    var w := Reached(net, w0, xs);
    assert SolOut(c) <= Weight(net, Sol, w.events[i]);
    hide Reached, AllTrusted, Genesis, Settled, KeysApart;
    SolSolvency(net, w0, xs, faulty);
    PartOfFlight(net, Sol, w.events, Proofs(w), i);
  }

  /** A payout that moves lamports: of SOL, or of a token with gas. */
  predicate TakesLamports(c: Claim) {
    c.SolClaim? || c.gas > 0
  }

  lemma PayGoesThrough(cfg: Config, s: State, c: Claim)
    requires c.TokenClaim? ==> c.mint in s.tokens && c.mint in s.ledger.mints
    requires Accounted(cfg, s.chain, s.ledger, c)
    requires s.chain == Solana && TakesLamports(c) ==> cfg.rent + SolOut(c) <= Lamports(s.ledger, cfg.handler)
    requires s.chain == Solayer ==> cfg.solayerBuild
    requires c.TokenClaim? ==>
               if NativeHere(s.chain, s.tokens[c.mint]) then c.amount <= Tokens(s.ledger, cfg.handler, c.mint)
               else Supply(s.ledger, c.mint) + c.amount <= U64_MAX
    ensures Pay(cfg, s, c).Ok?
  {
    hide MoveTokens, MintTokens, MoveLamports, AddLamports, Supply, Tokens, NativeHere;
    if c.TokenClaim? {
      var native := NativeHere(s.chain, s.tokens[c.mint]);
      assert PayTokens(cfg, native, s.ledger, c.mint, c.recipient, c.amount).Ok?;
      var l := PayTokens(cfg, native, s.ledger, c.mint, c.recipient, c.amount).value;
      assert l.lamports == s.ledger.lamports;
    }
  }

  /** The target handler is running, knows the token and has a threshold that records can reach; its guardians
      sign the claim; and six hours pass. */
  ghost predicate Ready(net: Net, w: World, target: Chain, c: Claim, sign: Signer, now: Clock, later: Clock) {
    var cfg, s := Cfg(net, target), StateOf(w, target);
    var d := cfg.hash(Payload(cfg.known.sol, c));
    && !s.pause && WithinReach(cfg, s, c) && Accounted(cfg, target, s.ledger, c)
    && (c.TokenClaim? ==> c.mint in s.tokens && c.gas <= MAX_ADDITIONAL_SOL_GAS)
    && SignsFor(net.valid, sign, s.guardians, d)
    && now.time + AWAITING_TIME_SECONDS <= later.time
    && (d in s.records ==> s.records[d].createdAt + AWAITING_TIME_SECONDS <= later.time)
  }

  /** What keeps the funds of a claim together: for the token keys or mints apart, and for lamports of the Solana
      handler keys apart and no more SOL burned on Solayer than was minted there. */
  ghost predicate Backed(net: Net, a: Asset, target: Chain, w0: World, xs: seq<WorldTx>, faulty: set<Pubkey>,
                         c: Claim)
  {
    && (c.TokenClaim? ==> Separated(net, a, w0, xs, faulty))
    && (target == Solana && TakesLamports(c) ==>
          KeysApart(net, w0, xs, faulty) && Reached(net, w0, xs).minted >= 0)
  }

  /** Delivery: in every world too few faulty guardians can reach, any truthful claim of a transfer in flight that is
      backed can be released by the guardians of a handler that is ready for it. Funds never lack. */
  lemma EveryTransferCanArrive(net: Net, a: Asset, target: Chain, w0: World, xs: seq<WorldTx>, faulty: set<Pubkey>,
                               i: nat, c: Claim, sign: Signer, now: Clock, later: Clock)
    requires Genesis(net, w0) && AllTrusted(net, w0, xs, faulty)
    requires Lamports(w0.solana.ledger, net.solana.handler) >= net.solana.rent && net.solayer.solayerBuild
    requires ForPair(net, a, target, c) && Backed(net, a, target, w0, xs, faulty, c)
    ensures var w := Reached(net, w0, xs);
            Pending(net, w, target, i, c) && Ready(net, w, target, c, sign, now, later) ==>
              Releasable(Cfg(net, target), net.valid, StateOf(w, target), c, now, later)
  {
    hide Reached, AllTrusted, Genesis, KeysApart, Separated, Payload, Pay, Releasable, WithinReach, Accounted, SignsFor;
    var w := Reached(net, w0, xs);
    if Pending(net, w, target, i, c) && Ready(net, w, target, c, sign, now, later) {
      var cfg, s := Cfg(net, target), StateOf(w, target);
      ReachedSound(net, w0, xs, faulty);
      TargetSound(net, w, target, faulty);
      if c.TokenClaim? {
        PairRoles(net, a, w, faulty);
        RecordedMintExists(net, w, target, faulty, c.mint);
        TokensSuffice(net, a, target, w0, xs, faulty, i, c);
      }
      if target == Solana && TakesLamports(c) {
        LamportsSuffice(net, w0, xs, faulty, i, c);
      }
      PayGoesThrough(cfg, s, c);
      ReleasableExactly(cfg, net.valid, sign, s, c, now, later);
    }
  }

  lemma RecordedMintExists(net: Net, w: World, target: Chain, faulty: set<Pubkey>, mint: Pubkey)
    requires WorldSound(net, w, faulty) && mint in StateOf(w, target).tokens
    ensures mint in StateOf(w, target).ledger.mints
  {
    assert target == Solana || target == Solayer;
    assert RoleSound(Cfg(net, target), StateOf(w, target), mint);
  }

  lemma TargetSound(net: Net, w: World, target: Chain, faulty: set<Pubkey>)
    requires WorldSound(net, w, faulty)
    ensures var s := StateOf(w, target); s.chain == target && GuardiansSound(s) && s.threshold > 0
  {
    assert target == Solana || target == Solayer;
  }
}
