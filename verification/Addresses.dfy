/** Seeds of the program-derived accounts, one layout per kind of account. */
module Addresses {
  import opened Types
  import opened Encoding
  import opened Payloads

  datatype AccountKey =
    | HandlerKey(initNonce: u64)
    | GuardianInfoKey(handler: Pubkey)
    | WrappedMintKey(handler: Pubkey, sourceMint: Pubkey)
    | TokenInfoKey(handler: Pubkey, mint: Pubkey)
    | TargetProofKey(handler: Pubkey, txHash: Digest)
    | RecordKey(handler: Pubkey, msgHash: Digest)
    | SourceProofKey(handler: Pubkey, signer: Pubkey, proofNonce: u64)

  function Ascii(s: string): (b: Bytes)
    requires forall i :: 0 <= i < |s| ==> (s[i] as int) < 0x100
    ensures |b| == |s|
  {
    seq(|s|, i requires 0 <= i < |s| => s[i] as int)
  }

  function Label(k: AccountKey): Bytes {
    match k
    case HandlerKey(_) => Ascii("bridge_handler")
    case GuardianInfoKey(_) => Ascii("guardian_info")
    case WrappedMintKey(_, _) => Ascii("mint")
    case TokenInfoKey(_, _) => Ascii("token_info")
    case TargetProofKey(_, _) => Ascii("bridge_proof")
    case RecordKey(_, _) => Ascii("verified_signatures")
    case SourceProofKey(_, _, _) => Ascii("bridge_proof")
  }

  function Fields(k: AccountKey): Bytes {
    match k
    case HandlerKey(n) => Be64(n)
    case GuardianInfoKey(h) => h
    case WrappedMintKey(h, m) => h + m
    case TokenInfoKey(h, m) => h + m
    case TargetProofKey(h, t) => h + t
    case RecordKey(h, d) => h + d
    case SourceProofKey(h, s, n) => h + s + Be64(n)
  }

  /** The seeds are hashed without separators, so only their concatenation counts. */
  function Seeds(k: AccountKey): Bytes {
    Label(k) + Fields(k)
  }

  function SeedsSize(k: AccountKey): nat {
    match k
    case HandlerKey(_) => 22
    case GuardianInfoKey(_) => 45
    case WrappedMintKey(_, _) => 68
    case TokenInfoKey(_, _) => 74
    case TargetProofKey(_, _) => 76
    case RecordKey(_, _) => 83
    case SourceProofKey(_, _, _) => 84
  }

  lemma SeedsHaveSize(k: AccountKey)
    ensures |Seeds(k)| == SeedsSize(k)
  {
  }

  /** No two accounts of different kinds, or of the same kind with different keys, share their seeds.
      This is what lets the bridge state keep one map for each kind of account. */
  lemma SeedsInjective(a: AccountKey, b: AccountKey)
    requires Seeds(a) == Seeds(b)
    ensures a == b
  {
    SeedsHaveSize(a);
    SeedsHaveSize(b);
    ConcatInjective(Label(a), Label(b), Fields(a), Fields(b));
    match a
    case HandlerKey(n) => Be64Injective(n, b.initNonce);
    case GuardianInfoKey(h) =>
    case WrappedMintKey(h, m) => ConcatInjective(h, b.handler, m, b.sourceMint);
    case TokenInfoKey(h, m) => ConcatInjective(h, b.handler, m, b.mint);
    case TargetProofKey(h, t) => ConcatInjective(h, b.handler, t, b.txHash);
    case RecordKey(h, d) => ConcatInjective(h, b.handler, d, b.msgHash);
    case SourceProofKey(h, s, n) =>
      LastFieldInjective(h + s, b.handler + b.signer, Be64(n), Be64(b.proofNonce));
      Be64Injective(n, b.proofNonce);
      ConcatInjective(h, b.handler, s, b.signer);
  }

  /** The label comes first, then the handler's address, then what varies; the handler's own address comes from its
      init nonce alone. */
  lemma SeedsLayout(k: AccountKey)
    ensures var s := Seeds(k);
            match k
            case HandlerKey(initNonce) => s == Ascii("bridge_handler") + Be64(initNonce)
            case GuardianInfoKey(handler) => s == Ascii("guardian_info") + handler
            case WrappedMintKey(handler, sourceMint) => s == Ascii("mint") + handler + sourceMint
            case TokenInfoKey(handler, mint) => s == Ascii("token_info") + handler + mint
            case TargetProofKey(handler, txHash) => s == Ascii("bridge_proof") + handler + txHash
            case RecordKey(handler, msgHash) => s == Ascii("verified_signatures") + handler + msgHash
            case SourceProofKey(handler, signer, proofNonce) =>
              s == Ascii("bridge_proof") + handler + signer + Be64(proofNonce)
  {
    hide Ascii, Be64;
  }
}
