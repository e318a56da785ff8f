# A verified model of the Solana/Solayer bridge

The bridge locks or burns an asset on one chain and releases or mints it on the other. Guardians watch the source
chain, sign the hash of each transfer, and the target handler pays out once enough of their signatures have been
recorded. This project models the bridge program on both chains, with its runtime and the scripts that encode
guardian signatures, and proves what keeps it sound.

- **The program.** `BridgeProgram.Bridge` is the program as it runs: a class whose methods update the handler, guardian,
  record, proof and token accounts and the balances, in the source's order, and may stop halfway. `Execute` is the
  runtime, which undoes a failed call. `BridgeSpec` gives every instruction as a function from state to new state or
  error, and each method is proved to meet its function. The theorems are about that function, over all runs.
- **Runs.** `Runs` interleaves calls with everything other programs may do to the balances: they may pay the handler but
  not debit it, burn wrapped tokens but not mint them, and not create a mint at a derived address. `Worlds` puts two
  chains together with the source events, the claims guardians agree to, and the transfers in flight.
- **Acceptance** (`Acceptance`). For every instruction exactly when it succeeds, told from the input state and the fields
  of the call, and what it then writes; the dollar cap in integers.
- **Approval** (`Approval`, `Quorum`, `Batches`, `Reachability`). Every payout was signed, field for field, by a
  threshold of distinct guardians, each by a valid signature that an earlier transaction carried. The guardian list, the
  threshold and the majority are invariants over membership changes.
- **Codec** (`Ed25519Codec`, `Precompile`, `SignerIndexes`, `Payloads`, `Addresses`). The program's decoder inverts both of
  the scripts' encoders of Ed25519 instruction data, and decodes the bytes the Ed25519 program checked; the signed bytes
  and the account seeds determine their fields.
- **Custody** (`Effects`, `Worlds`, `Solvency`, `Custody`, `Delivery`, `SharedKeys`). What each transfer does to every
  balance; solvency of every token pair and of SOL over both chains, with its exact condition; and its use: a transfer in
  flight can always be completed.
- **Cap** (`InstantCap`). One dollar bucket for both target handlers: conservation, rounding and the six-hour wait.
- **Once only** (`Uniqueness`, `TokenRoles`). Payouts, nonces and proofs are never repeated; a token's role never changes.

## Assumptions

They are hypotheses of the theorems that need them.

- The hash is any function. Theorems about agreed claims assume only that the claim paid out collides with none of them
  (`NoCollision`), which is weaker than injectivity.
- Ed25519 verification (RFC 8032, section 5.1.7) is an oracle on key, signature and message. Every recorded batch followed
  an Ed25519 instruction that passed and in which entries with the scripts' index fields 0xFFFF name everything that is
  decoded. `PassingVouchesExactly` shows that this is exactly when passing vouches for the decoded bundles, and
  `OtherFieldsReleaseUnsigned` what happens otherwise.
- Records store positions in the guardian list, and a removal shifts positions. Approval assumes that no guardian at or
  before a recorded signer's position is removed while that record is open. `RemovalExact` shows that this is exactly
  when positions keep their meaning, and `ShiftedGuardianReleasesAlone` that a payout can go out on too few signers
  otherwise.
- For custody, where a release succeeds fewer than the threshold of the listed guardians are faulty. An honest key's valid
  signature is carried to a handler only after that guardian agreed to a claim with that digest, and guardians agree to
  claims of real source events, for no more than their amount and gas, that are headed for a handler that lists them.
- The signed bytes name no chain, and agreement names none either. A release keeps solvency if and only if its claim's event
  is headed for the releasing chain (`ReleaseSlackExact`). Two arrangements a deployer can check give that: no honest
  guardian is listed on both handlers (`KeysApart`), or, for a token pair, no transfer was of a token whose address on the
  other side names the pair here (`MintsApart`). `MintsApartExact` shows that this is exactly when no truthful claim for the
  other chain names the pair's mint on this one. For two handlers of one program and one init nonce, which derive the same
  addresses, `OneDerivationApart` spells it out: nobody locked, on the other chain, a token at the native's own address, nor
  burned the token that wraps such a one at home.

## Where the code and its documentation differ

The model follows the code.

- The repository's README.md:58 derives the payout's proof address from the sender, recipient, mint, amount, nonce and
  transaction; the code derives it from the hash of the source transaction alone.
- The repository's README.md:51 takes the fee out of the token; the code takes a fixed lamport fee.
- `pause_token` and `unpause_token` set a flag on an account that is not writable, so nothing is stored
  (`TokenNeverPaused`).
- `scripts/utils.ts:78-101` hashes one mint where the token handler hashes two (`ScriptTokenMessageNeverAgrees`).
- Guardians sign a transfer for its target chain (the repository's README.md:56), but the bytes they sign name no chain,
  and the devnet scripts load the same guardian key files for both handlers (scripts/devnet/solana/add_guardian.ts:18-35
  and scripts/devnet/solayer/add_guardian.ts:19-36). With honest guardians on both handlers SOL solvency can fail:
  signatures for Solayer also release the locked SOL on Solana (`StrayClaimPaid`, `SharedKeyBreaksSolvency`).
- `remove_guardian` shifts the positions that open records refer to, so that one guardian can fill two of them
  (`ShiftedGuardianReleasesAlone`).
- The bridge ignores the index fields of the Ed25519 table, and `verify_signature` takes any caller. Where the fields name
  another instruction, a passing Ed25519 instruction says nothing about the bundles the bridge decodes, and approval fails
  (`OtherFieldsCheckOtherBytes`, `OtherFieldsReleaseUnsigned`).
- `initialize` takes any signer (programs/bridge/src/contexts/initialize.rs:8-36), all handlers on Solayer mint and burn the
  same native SOL, and signed bytes name no handler. The model counts the SOL one handler minted and burned; SOL that
  another handler minted, or that Solayer had before, can make that count negative when it is burned here, which is how the
  hypothesis `minted >= 0` of `EveryTransferCanArrive` can fail.
- The cap conserves what was truncated, and the rounding bound holds as long as no release measures 2^64 dollars, where the
  cast to u64 saturates; that takes a limit of the largest u64 (`LargestLimitSaturates`).
- `update_guardian_threshold` accepts 11 to 15, while a record holds at most 10 signers: at such a threshold no claim can
  be released (`ReleasableExactly`).

## Model

| member | source | states |
|---|---|---|
| `Acceptance.ReleaseExact` | programs/bridge/src/contexts/bridge_asset_target_chain.rs:94-202 | A release succeeds if and only if the operator calls, the bridge is not paused, the digest is that of the claim and has a record of 1 to 10 indexes, no fewer than the threshold and no more than the guardians, the transaction has no proof, the mint is known, gas is at most half a SOL, the cap allows it and the funds and rooms are there; it then pays the claim, charges the cap, leaves the proof and closes the record |
| `Acceptance.CapExact` | programs/bridge/src/contexts/bridge_asset_target_chain_sol.rs:75-98 | On Solana a claim is charged its whole dollars when the bucket, a full one in a new epoch, covers them, and otherwise needs 21,600 seconds since the record's time; nothing is charged on Solayer or for an unlisted mint |
| `Acceptance.MeasuredInIntegers` | programs/bridge/src/constants.rs:51-60 | The dollars of a SOL claim are its lamports over 5,000,000, and of a claim of a listed mint its price in cents times the amount, at least one token, over 100 tokens, all in integer division |
| `Acceptance.PriceInCents` | programs/bridge/src/constants.rs:22-48 | The six listed mints and their prices, and no other |
| `Acceptance.PayExact` | programs/bridge/src/contexts/bridge_asset_target_chain.rs:169-200 | A payout goes through exactly when the vault or the supply, the lamports above the rent minimum, and the room in the recipient's balances allow it |
| `Acceptance.TokenTransferExact` | programs/bridge/src/contexts/bridge_asset_source_chain.rs:74-161 | A token transfer succeeds if and only if the bridge is not paused, the proof pair is unused, the signer is not the handler, the mint exists, the signer's tokens and lamports cover the amount, gas and fees, gas is 0 or within its limits, the nonce is not the largest and the other balances have room; it then locks or burns the amount and writes nonce, record and proof |
| `Acceptance.SolTransferExact` | programs/bridge/src/contexts/bridge_asset_source_chain_sol.rs:43-93 | The same for a transfer of SOL of at least 5,000,000 lamports |
| `Acceptance.VerificationExact` | programs/bridge/src/contexts/verify_signature.rs:39-86 | Signatures are recorded if and only if the Ed25519 instruction carries the named guardians' signatures of the digest in order and the indexes extend the record, whoever calls; they are appended and the record restamped |
| `Acceptance.AddTokenExact` | programs/bridge/src/contexts/add_token.rs:62-99 | Adding a token succeeds exactly for the operator, with the decimals of the wrapped mint if it exists; it creates that mint with those decimals and no supply, and records the mint it wraps, if there is no record |
| `Acceptance.SettingExact` | programs/bridge/src/contexts/update_instant_bridge_cap.rs:18-21 | Settings are the manager's; each changes its own field and nothing else, and the fee vault must change |
| `Acceptance.InitialExact` | programs/bridge/src/lib.rs:21-29 | Chain 1 is Solana, 2 Solayer and no other number is one; the new handler has threshold 255, a full bucket, fee 500,000, nonce 0 and no guardians or accounts; its manager alone can add guardians and its operator alone tokens |
| `Approval.EveryPayoutApproved` | programs/bridge/src/contexts/bridge_asset_target_chain.rs:133-167 | In any run that moves no recorded signer's position and whose recorded batches for the digest the Ed25519 program vouched for, a release that succeeds has at least `threshold` distinct listed guardians, for each of whom an earlier successful `verify_signature` carried a valid signature of the hash of exactly the sender, recipient, mints, amount, nonce, transaction and gas it pays out |
| `Approval.RecordSigned` | programs/bridge/src/contexts/verify_signature.rs:39-86 | Over any such run every index of an open record names a guardian whose valid signature of its digest an earlier successful transaction carried, no two the same guardian, at most 10 |
| `Approval.BatchAccepted` | programs/bridge/src/contexts/verify_signature.rs:45-77 | The index checks accept exactly non-empty lists of distinct, new, in-range indexes that fit both limits, and keep the record free of duplicates |
| `Approval.BatchSigned` | programs/bridge/src/contexts/verify_signature.rs:74-84 | If the Ed25519 program vouched for it, the instruction data of an accepted batch decode, for every guardian it names, to a bundle of that key, the record's digest and a valid signature |
| `Approval.SignersCount` | programs/bridge/src/contexts/verify_signature.rs:74-84 | A record of n indexes stands for n distinct guardians of the list |
| `Approval.SignedFieldsAreUnique` | programs/bridge/src/contexts/bridge_asset_target_chain.rs:153-167 | A payout with the hash of an agreed claim is that claim in every field, unless their payloads collide |
| `Approval.RemovalExact` | programs/bridge/src/contexts/remove_guardian.rs:33-35 | A removal leaves every recorded index naming the same guardian if and only if the removed one stands after all of them |
| `Approval.ShiftedGuardianCountsTwice` | programs/bridge/src/contexts/remove_guardian.rs:33-35 | Otherwise a guardian can shift to a free position, where the index checks accept it a second time |
| `Reachability.ShiftedGuardianReleasesAlone` | programs/bridge/src/contexts/remove_guardian.rs:33-35 | From any sound state with threshold 2 and at least 3 guardians, one guardian that signs before and after the removal of its predecessor gets any payable claim released, with only its own signatures carried |
| `Quorum.QuorumInvariant` | programs/bridge/src/contexts/update_guardian_threshold.rs:26-45 | In every reachable state guardians are distinct and at most 15, the threshold is unset or between 1 and their number, and twice the threshold plus the guardians added since it was set exceeds their number |
| `Quorum.QuorumsOverlap` | programs/bridge/src/contexts/update_guardian_threshold.rs:32-36 | Two threshold-size signer sets share at least 2 * threshold - len guardians, so at least one if none was added since |
| `Quorum.QuorumsMeetExactly` | programs/bridge/src/contexts/add_guardian.rs:28-35 | All pairs of threshold-size sets meet if and only if the threshold is more than half the list: additions can erode it |
| `Quorum.MembershipExact` | programs/bridge/src/contexts/remove_guardian.rs:28-41 | An addition succeeds exactly for the manager, for a new guardian and a list of fewer than 15, and appends it; a removal exactly for the manager and a listed guardian while the threshold stays met, so never before one is set, and removes just that guardian; a threshold is accepted from the manager exactly when it is a strict majority no larger than the list |
| `Quorum.AdditionKeepsSound` | programs/bridge/src/contexts/add_guardian.rs:28-35 | An addition makes the list one longer, still distinct and at most 15 |
| `Batches.BatchHomomorphism` | programs/bridge/src/contexts/verify_signature.rs:45-84 | Verifying a then b succeeds if and only if verifying a ++ b in one call does, with identical records |
| `Batches.BatchVerified` | programs/bridge/src/contexts/verify_signature.rs:45-80 | A call succeeds exactly when its indexes extend the record and the decoded bundles are the named guardians' signatures of the digest, in order |
| `Reachability.ReleasableExactly` | programs/bridge/src/contexts/bridge_asset_target_chain.rs:133-146 | From any sound state guardians who all sign can bring a claim to its release six hours on if and only if it can be paid and the threshold is at most 10 and the record within limits |
| `Reachability.Fill` | programs/bridge/src/contexts/verify_signature.rs:67-84 | By single signatures encoded with the scripts' encoder a record can be brought to any size up to 10 and the number of guardians |
| `SignerIndexes.DuplicateTestExact` | programs/bridge/src/contexts/verify_signature.rs:58-65 | The sort, dedup and length test passes exactly for lists without duplicates |
| `SignerIndexes.DedupInPlace` | programs/bridge/src/contexts/verify_signature.rs:61 | The loop over neighbours computes `Dedup`, the function that test is about |
| `Ed25519Codec.LoadSignatures` | programs/bridge/src/utils/verify_ed25519.rs:61-91 | The loop returns the decoded list, or the error of the first entry that does not decode |
| `Ed25519Codec.DecoderExact` | programs/bridge/src/utils/verify_ed25519.rs:29-91 | On arbitrary bytes decoding succeeds if and only if the table fits, every slice is in bounds and every message has 32 bytes; it then yields `data[0]` bundles made of those slices |
| `Ed25519Codec.EntryBytes` | programs/bridge/src/utils/verify_ed25519.rs:44-58 | Each table entry is fourteen bytes from 2 + 14i on, seven numbers in the order of the offsets structure, the low byte first |
| `Ed25519Codec.VerifyEd25519Ix` | programs/bridge/src/utils/verify_ed25519.rs:93-131 | The checks and the loop give the verdict of the first check, in order, that fails |
| `Ed25519Codec.VerifierExact` | programs/bridge/src/utils/verify_ed25519.rs:93-131 | Acceptance if and only if the instruction is the Ed25519 program's, has no accounts, and decodes to bundles that match the signers position by position on the given message |
| `Ed25519Codec.MakeEd25519InstDataPacked` | scripts/utils.ts:244-304 | The encoder succeeds for 1 to 255 signatures and a 16-bit index, and writes the count, the table, the first message and the chunks |
| `Ed25519Codec.MakeEd25519InstData` | scripts/utils.ts:306-391 | The unpacked encoder, also for the empty list |
| `Ed25519Codec.WriteHeader` | scripts/utils.ts:275-299 | The table loop succeeds exactly when the count fits in a byte and all offsets in 16 bits |
| `Ed25519Codec.PackedRoundTrip` | scripts/utils.ts:244-304 | For 1 to 255 signatures packed data decodes to the original list if and only if they share one message; it has 34 + 110n bytes, below 2^16 |
| `Ed25519Codec.PackedDecodes` | scripts/utils.ts:244-304 | In general it decodes to the list with the first message throughout |
| `Ed25519Codec.PackedBytes` | scripts/utils.ts:244-304 | The packed bytes at their places: count, zero, table, the first message, then key and signature of each bundle |
| `Ed25519Codec.UnpackedRoundTrip` | scripts/utils.ts:306-391 | Unpacked data decodes to the original list, the empty one included, whatever the messages; it has 2 + 142n bytes, below 2^16 |
| `Ed25519Codec.UnpackedBytes` | scripts/utils.ts:306-391 | The unpacked bytes at their places: count, zero, table, then key, signature and message of each bundle |
| `Precompile.DecodedAreValid` | programs/bridge/src/utils/verify_ed25519.rs:11-20 | If entries with index fields 0xFFFF name everything that is decoded, the bundles the bridge decodes are ones the Ed25519 program verified |
| `Precompile.PassingVouchesExactly` | programs/bridge/src/utils/verify_ed25519.rs:11-20 | For data that decode, passing the Ed25519 program makes every decoded bundle valid, under every oracle and beside any other instructions, if and only if each entry's slices are also named by an entry whose three index fields are 0xFFFF |
| `Precompile.PackedPasses` | scripts/utils.ts:244-304 | What the packed encoder writes with that index passes the Ed25519 program for valid signatures of one message |
| `Precompile.OtherFieldsCheckOtherBytes` | programs/bridge/src/utils/verify_ed25519.rs:61-91 | With fields that name another instruction the program can pass on that one's signatures while the bridge decodes any others |
| `Reachability.OtherFieldsReleaseUnsigned` | programs/bridge/src/utils/verify_ed25519.rs:93-131 | From any sound state with a threshold of at most 10, one call whose Ed25519 instruction passes on another instruction's bytes gets a payable claim released six hours on, whatever signature its bundles hold |
| `Payloads.PayloadInjective` | programs/bridge/src/contexts/bridge_asset_target_chain.rs:153-161 | The signed bytes determine every field of the claim, and a token claim never shares bytes with a SOL claim |
| `Payloads.PayloadLayout` | programs/bridge/src/contexts/bridge_asset_target_chain.rs:153-161 | Every field of the signed bytes at its place: sender, recipient, source mint, mint, amount, nonce, transaction and gas of a token claim in 216 bytes; sender, recipient, SOL mint, amount, nonce and transaction of a SOL claim in 176 |
| `Encoding.Be64Value` | programs/bridge/src/contexts/bridge_asset_target_chain.rs:158-161 | The eight bytes of a number spell its value, the most significant first |
| `Payloads.ScriptTokenMessageLacksMint` | scripts/utils.ts:78-101 | The script's token message is the handler's payload with the handler chain's own mint cut out |
| `Payloads.PayloadSize` | programs/bridge/src/contexts/bridge_asset_target_chain_sol.rs:115-121 | 216 bytes for a token claim and 176 for a SOL claim |
| `Payloads.ScriptSolMessageAgrees` | scripts/utils.ts:103-124 | The script's SOL message is what the handler hashes if and only if it is given the SOL mint |
| `Payloads.ScriptTokenMessageNeverAgrees` | scripts/utils.ts:78-101 | The script's token message is never what a handler hashes, for any inputs |
| `Payloads.SourceMessageInjective` | programs/bridge/src/contexts/bridge_asset_source_chain.rs:171-177 | A source proof's message determines signer, recipient, mint, amount and proof nonce, and is never a payload guardians sign |
| `Payloads.SourceMessageLayout` | programs/bridge/src/contexts/bridge_asset_source_chain.rs:171-177 | Its 112 bytes are signer, recipient, mint, amount and proof nonce, in that order |
| `Addresses.SeedsInjective` | programs/bridge/src/contexts/bridge_asset_source_chain.rs:49-63 | No two program accounts of different kind or key share their concatenated seeds |
| `Addresses.SeedsLayout` | programs/bridge/src/contexts/bridge_asset_source_chain.rs:49-63 | Every kind of account by its label, the handler's address and what varies, in that order |
| `Addresses.SeedsHaveSize` | programs/bridge/src/contexts/bridge_asset_target_chain.rs:62-85 | The seven layouts have 22, 45, 68, 74, 76, 83 and 84 bytes |
| `Uniqueness.PaidAtMostOnce` | programs/bridge/src/contexts/bridge_asset_target_chain.rs:62-81 | Over any run the token and SOL target instructions together pay a source transaction out at most once on a handler, and a payout leaves its proof for good |
| `Uniqueness.ReleasedTxStaysRefused` | programs/bridge/src/contexts/bridge_asset_target_chain_sol.rs:61-142 | After a payout every later release of that transaction fails, even when its record was rebuilt |
| `Uniqueness.NonceCountsCalls` | programs/bridge/src/contexts/bridge_asset_source_chain.rs:157-160 | The handler nonce, which the next call returns, is the number of successful source calls of both kinds |
| `Uniqueness.SourcePairUsedOnce` | programs/bridge/src/contexts/bridge_asset_source_chain.rs:49-56 | Over any run successful source calls of both kinds use a signer's proof nonce at most once |
| `Uniqueness.ActKeepsProofs` | programs/bridge/src/contexts/bridge_asset_target_chain.rs:62-69 | No transaction removes a proof account of either kind |
| `InstantCap.CapConserved` | programs/bridge/src/contexts/bridge_asset_target_chain.rs:109-131 | In every run the remaining cap plus the truncated dollars of the instant releases since the last epoch reset or manager override is the value last set; delayed releases and failed calls take nothing |
| `InstantCap.TrueWorthBounded` | programs/bridge/src/constants.rs:51-60 | k >= 1 instant releases in a window of limit C are truly worth less than C + k dollars, for every limit, when no counted release measures 2^64 dollars or more; below the largest limit none does |
| `InstantCap.LargestLimitSaturates` | programs/bridge/src/contexts/bridge_asset_target_chain.rs:121-130 | At the largest limit a release of the largest amount of a three-dollar token without decimals, once approved and payable, succeeds at once, empties the bucket and breaks the bound |
| `InstantCap.SaturationExact` | programs/bridge/src/contexts/bridge_asset_target_chain.rs:121-130 | At the largest limit the first instant release keeps the rounding bound if and only if it is one of SOL or price times amount is below 2^64 units of the token's decimals |
| `InstantCap.WorthExact` | programs/bridge/src/constants.rs:51-60 | A measured claim is worth less than 2^64 dollars if and only if it is one of SOL or price times amount is below 2^64 units of the token's decimals |
| `InstantCap.TruncationExact` | programs/bridge/src/contexts/bridge_asset_target_chain.rs:121-130 | Truncation loses less than a dollar if and only if the cast does not saturate |
| `InstantCap.WorthIsMeasured` | programs/bridge/src/constants.rs:51-60 | The one-token minimum never measures a claim below its worth |
| `InstantCap.ChargeMonotone` | programs/bridge/src/constants.rs:51-60 | A larger amount is never charged less, for tokens and for SOL |
| `InstantCap.RecordRestamped` | programs/bridge/src/contexts/verify_signature.rs:82-84 | With a monotone clock an open record is never older than any batch recorded for it |
| `InstantCap.DelayGuaranteed` | programs/bridge/src/contexts/bridge_asset_target_chain_sol.rs:85-98 | A release above the remaining cap comes at least six hours after every batch recorded for its digest |
| `TokenRoles.RolesSound` | programs/bridge/src/contexts/add_token.rs:74-99 | In every reachable state a token record has exactly one native flag, names its own mint, is never paused, and is foreign if and only if its mint is derived by `add_token`; then it is derived from the mint the record holds for the other chain; every derived mint has a record |
| `TokenRoles.NativeRecordOrigin` | programs/bridge/src/contexts/bridge_asset_source_chain.rs:113-135 | In every reachable state a native record holds, for the other chain, the target mint of the transfer that wrote it |
| `TokenRoles.RecordWritten` | programs/bridge/src/contexts/add_token.rs:74-99 | Only a token's first transfer and `add_token` write a record: native with the target mint, or foreign with the mint it wraps |
| `TokenRoles.RecordPermanent` | programs/bridge/src/contexts/bridge_asset_source_chain.rs:113-148 | A token record never changes once written |
| `TokenRoles.TokenNeverPaused` | programs/bridge/src/contexts/pause_token.rs:22-40 | Pausing and unpausing a token succeed for the manager and change nothing, in every reachable state |
| `Effects.ReleaseEffect` | programs/bridge/src/contexts/bridge_asset_target_chain.rs:169-202 | A successful release changes every balance and supply by exactly its claim, leaves its proof, closes its record and touches nothing else but the cap |
| `Effects.PayEffect` | programs/bridge/src/contexts/bridge_asset_target_chain.rs:204-292 | The payout itself: released from the vault if native, minted if not, with gas paid or minted, the rent minimum kept, all aliasing included |
| `Effects.SourceTokenEffect` | programs/bridge/src/contexts/bridge_asset_source_chain.rs:74-181 | A successful token transfer locks or burns exactly the amount, takes gas within its limits and the fees, and writes the next nonce, the token's record and a proof of who sent what to whom |
| `Effects.SourceSolEffect` | programs/bridge/src/contexts/bridge_asset_source_chain_sol.rs:43-93 | The same for a SOL transfer of at least the minimum |
| `Worlds.ReleaseWasAgreed` | programs/bridge/src/contexts/bridge_asset_target_chain.rs:133-167 | With fewer than a threshold of faulty guardians every released claim was agreed to by an honest guardian of the handler |
| `Worlds.NextSound` | programs/bridge/src/contexts/verify_signature.rs:39-86 | Every transaction on either chain keeps both chains' guardian, role and record invariants, and an event headed somewhere for every agreed claim |
| `Worlds.DeskHeads` | programs/bridge/src/contexts/bridge_asset_target_chain.rs:133-167 | If each honest guardian is listed on one handler only, every release pays a claim headed for its own chain |
| `Solvency.ReleaseSettles` | programs/bridge/src/contexts/bridge_asset_target_chain.rs:62-81 | A release of a claim headed for its chain settles an unsettled event that the claim describes truthfully, and no event with another transaction hash |
| `Solvency.SlackNeverFalls` | programs/bridge/src/contexts/bridge_asset_target_chain.rs:169-200 | No transaction takes more out of an asset's holdings than it takes out of flight, if releases are headed for their chain or pay nothing out of the asset |
| `Solvency.ReleaseSlackExact` | programs/bridge/src/contexts/bridge_asset_target_chain_sol.rs:115-139 | A release that pays out of an asset keeps what is held beyond liabilities if and only if its claim's event is headed for the releasing chain; otherwise that falls by exactly the payout |
| `Solvency.TokenSolvency` | programs/bridge/src/contexts/bridge_asset_target_chain.rs:169-185 | In every world reachable with too few faulty guardians, with guardian keys or the pair's mints apart, a native token's vault covers the supply of its wrapped token and all transfers of either in flight |
| `Solvency.SolSolvency` | programs/bridge/src/contexts/bridge_asset_target_chain_sol.rs:135-139 | In every such world without an honest guardian on both handlers, the Solana handler has gained at least the SOL its counterpart minted less burned on Solayer plus every amount and gas in flight either way |
| `Solvency.KeysApartHeads` | programs/bridge/src/contexts/add_guardian.rs:28-35 | In a run that never lists an honest guardian on both handlers every release is headed for its own chain |
| `Solvency.MintsApartExact` | programs/bridge/src/contexts/bridge_asset_target_chain.rs:153-161 | Mints are apart if and only if no truthful claim for the other chain names the pair's mint on this one |
| `Solvency.OneDerivationApart` | scripts/constants.ts:3-17 | On handlers with one address and one derivation mints are apart if and only if nobody locked, on the other chain, a token at the native's own address, nor burned its wrapped token at home |
| `SharedKeys.StrayClaimPaid` | programs/bridge/src/contexts/bridge_asset_target_chain_sol.rs:115-139 | From any reachable world in which all guardians of a handler agreed to a claim headed for the other one, more transactions that break no assumption release it on the wrong handler, at the cost of the whole payout |
| `SharedKeys.SharedKeyBreaksSolvency` | scripts/devnet/solana/add_guardian.ts:18-35 | A run from freshly initialized handlers with one honest guardian on both ends with the Solana handler short of what it owes |
| `Custody.CustodyExact` | programs/bridge/src/contexts/bridge_asset_source_chain.rs:90-148 | For tokens and SOL alike these are equalities when guardian keys, or the pair's mints, are apart, claims are full, each transaction has one event that no hash confuses with another, and nobody donates, burns, or pays the handler itself |
| `Custody.RentKept` | programs/bridge/src/contexts/bridge_asset_target_chain_sol.rs:178-193 | The Solana handler never falls below its rent minimum, whoever is paid, itself included |
| `Delivery.EveryTransferCanArrive` | programs/bridge/src/contexts/bridge_asset_target_chain.rs:94-202 | In every world reachable with too few faulty guardians any truthful claim of a transfer in flight can be released by the guardians, if the target handler is running, knows the token and has a reachable threshold, keys or the pair's mints are apart and, where lamports leave the Solana handler, keys are apart and Solayer burned no more SOL than it minted: funds never lack |
| `Delivery.TokensSuffice` | programs/bridge/src/contexts/bridge_asset_target_chain.rs:169-185 | For a transfer in flight the vault holds the amount, or the wrapped supply has room for it |
| `BridgeProgram.Bridge.Execute` | programs/bridge/src/lib.rs:63-170 | One instruction is atomic: it reaches the specified state, or fails with the specified error and changes nothing |
| `BridgeProgram.InitializeBridge` | programs/bridge/src/lib.rs:21-29 | Only chain numbers 1 and 2 are accepted; the new handler is in the initial state every invariant starts from |
| `BridgeProgram.Bridge.Initialize` | programs/bridge/src/contexts/initialize.rs:39-62 | No guardians, threshold 255, full cap of the current epoch, nonce 0, default fee |
| `BridgeProgram.Bridge.AddGuardian` | programs/bridge/src/contexts/add_guardian.rs:28-35 | Meets `AddGuardianTo`, also when the account would overflow |
| `BridgeProgram.Bridge.RemoveGuardian` | programs/bridge/src/contexts/remove_guardian.rs:28-41 | Meets `RemoveGuardianFrom`, whose guard comes after the list was changed |
| `BridgeProgram.Bridge.Retain` | programs/bridge/src/contexts/remove_guardian.rs:33-35 | The loop keeps exactly the other guardians, in order |
| `BridgeProgram.Bridge.UpdateGuardianThreshold` | programs/bridge/src/contexts/update_guardian_threshold.rs:26-45 | Meets `UpdatedThreshold`, the subject of `MembershipExact` |
| `BridgeProgram.Bridge.UpdateSetting` | programs/bridge/src/contexts/update_instant_bridge_cap.rs:18-21 | The manager's single-field setters change their field and nothing else |
| `BridgeProgram.Bridge.VerifySignature` | programs/bridge/src/contexts/verify_signature.rs:39-86 | Meets `VerifiedBatch`: all checks before any write, then the indexes appended and the record restamped |
| `BridgeProgram.Bridge.CheckSignerIndexes` | programs/bridge/src/contexts/verify_signature.rs:45-77 | The checks in order, with the sort and dedup in place, give the verdict `BatchAccepted` characterises |
| `BridgeProgram.Bridge.ValidateInstantCap` | programs/bridge/src/contexts/bridge_asset_target_chain.rs:115-130 | Resets, charges or waits as `Charge` says, and touches no other field |
| `BridgeProgram.GetWhitelistedTokenPrice` | programs/bridge/src/constants.rs:51-60 | Clamp, search and price together are `TokenDollars` |
| `BridgeProgram.FindPrice` | programs/bridge/src/constants.rs:56-60 | The search returns the first entry of a mint |
| `BridgeProgram.Bridge.BridgeAssetTargetChain` | programs/bridge/src/contexts/bridge_asset_target_chain.rs:94-202 | Meets `Released` for token claims, the subject of the approval, cap and custody theorems |
| `BridgeProgram.Bridge.BridgeAssetTargetChainSol` | programs/bridge/src/contexts/bridge_asset_target_chain_sol.rs:61-142 | Meets `Released` for SOL claims |
| `BridgeProgram.Bridge.TransferSolToRecipient` | programs/bridge/src/contexts/bridge_asset_target_chain.rs:277-292 | Debit and credit amount to one transfer that keeps the rent minimum, also to the handler itself |
| `BridgeProgram.Bridge.BridgeAssetSourceChain` | programs/bridge/src/contexts/bridge_asset_source_chain.rs:74-181 | Meets `SourcedToken` and returns the nonce it took |
| `BridgeProgram.Bridge.TakeTokensFrom` | programs/bridge/src/contexts/bridge_asset_source_chain.rs:111-148 | First-use classification, lock or burn as `TakeTokens` says |
| `BridgeProgram.Bridge.BridgeAssetSourceChainSol` | programs/bridge/src/contexts/bridge_asset_source_chain_sol.rs:43-93 | Meets `SourcedSol` and returns the nonce it took |
| `BridgeProgram.Bridge.AddToken` | programs/bridge/src/contexts/add_token.rs:62-137 | Meets `AddedToken`: the wrapped mint and a record written at most once |
| `BridgeProgram.Bridge.SetTokenPause` | programs/bridge/src/contexts/pause_token.rs:30-40 | Reports success to the manager and leaves the state as it was |

## Left out

- `BridgeProgram.Bridge.BridgeAssetSourceChain`: the creation and checks of the handler's vault account and the rent the signer pays for it are left out; the vault always exists.
- `BridgeProgram.Bridge.Execute`: does not model the rent that payers of created accounts spend or get back on close, bump seeds, logging, or the order in which account constraints fail.
- `BridgeProgram.GetWhitelistedTokenPrice`: dollar values are exact reals with floor and saturation; binary floating-point rounding is not modelled.
- `BridgeProgram.Bridge.AddToken`: metadata creation is left out; the wrapped mint's address is an abstract derivation from the source mint.
- `BridgeProgram.Bridge.TakeTokensFrom`: one token account for each owner and mint, vaults that always exist, and tokens without transfer fees, whose transfers would not be exact.
- `BridgeProgram.Bridge.MintSolToRecipient`: minting and burning SOL are exact balance changes; failure codes of those system calls are not modelled.
- `BridgeProgram.Bridge.VerifySignature`: the caller pays for the record but is not checked by the source, so the model names no caller; negative clock values, which the cast to u64 would turn into very large ones, are not modelled.
- `Ed25519Codec.MakeEd25519InstDataPacked`: keys, signatures and messages have their fixed sizes of 32, 64 and 32 bytes, as in every call of the scripts.
- `Delivery.EveryTransferCanArrive`: assumes that balances of one mint are part of its supply and that all lamports fit in 64 bits, which the token program and the runtime keep.
- `Worlds.ReleaseWasAgreed`: what makes an honest guardian agree is its own workflow off chain; the model only fixes which claims it may agree to.
- `Precompile.DecodedAreValid`: of the Ed25519 program only the bytes it reads and the oracle's verdict on them are modelled.
- `Acceptance.ReleaseExact`: which error a refused call answers is told only by the function its handler meets, in the order of the source's checks; the theorems say when calls succeed.
- SHA-256, Ed25519 and base58 internals: an arbitrary hash, a signature oracle, and well-known mints as configuration.
- Several handlers on one chain: a model state is one handler. Seeds keep the accounts of handlers apart (`Addresses.SeedsInjective`), but not the native SOL that all of them mint and burn on Solayer, nor the bytes guardians sign.
- The handler account is one record-valued field of the class, so its fields are updated together; `init_nonce`, `guardian_info` and the fees of unimplemented features are constant and left out.
- Message bridging, cross-chain calls, token-denominated fees and the largest handled nonce: no program code implements them.
- The other scripts, RPC, key files and configuration.
