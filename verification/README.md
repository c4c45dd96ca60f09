# Confidential swap and timelock escrow: model and proofs

A Dafny 4.11 model of the confidential swap protocol (`swap-program/`) and of the timelock escrow
(`escrow-program/`), the second instance of the same scheme. `dafny verify dfyconfig.toml` checks
everything.

Each instruction of the two programs exists three times: as a circuit, as an on-chain processor and as
an SDK builder. The project models all three over one abstract shielded pool and proves what holds
where they meet and over whole runs.

## What is modelled

- **Field elements, bytes, hashes** (`ideal.dfy`). Every hash is a constructor of a free term, so
  collision freedom and "a hash is never zero" need no axiom. A byte is a concrete value, or one byte
  of the canonical encoding of a hash, masked by a finite set of keystream bytes; XOR toggles
  membership. Big-endian digits, `u64_right_align` and the decoding of 32-byte strings are concrete.
- **Notes and the pool** (`notes.dfy`, `pool.dfy`). The pool has a clock, the appended commitments and
  the published nullifiers. `Accepts` is the contract the two programs rely on: inputs appended,
  nullifiers fresh, every owner signing, value balanced per asset, and the private transaction hash,
  the ciphertexts and the messages bound to what is forwarded. A Solana owner signs as an account of
  the call, an owner with a P-256 key inside the pool's proof. Padding inputs and outputs hash to zero.
- **Circuits as predicates** (`swap_circuits.dfy`, `escrow.dfy`). A proof is its witness:
  verification succeeds when the circuit's constraints hold of the witness and the public input.
- **Processors** (`swap_program.dfy`, `escrow.dfy`, `chain.dfy`). The functions `MakeCall`, `TakeCall`,
  `VerifiableTakeCall`, `CancelCall`, `EscrowCall` and `WithdrawCall` specify each processor up to the
  pool call, error by error; `acceptance.dfy` says of each, over the accounts, the clock, the transaction
  and the notes alone, exactly which instructions are forwarded and why the others are refused.
  `Chain.Ledger` is the pool as an object that carries the run it has been
  through: each processor method, run step by step, extends that run by its own step and states what
  the step means for the orders and escrows in the pool, and the theorems over runs hold of the object.
- **SDK** (`order.dfy`, `swap_sdk.dfy`, `escrow.dfy`, `cipher.dfy`, `marker.dfy`, `proof_inputs.dfy`,
  `builders.dfy`): the order and its two representations, the four proof-input builders, the escrow's two,
  the encrypted payout with its in-place buffers, and the make instruction with its blanked marker.
- **Discovery** (`scan.dfy`, `discovery.dfy`, `poll.dfy`, `indexing.dfy`): slot enumeration, the taker's
  and the maker's reconstruction, pagination, polling, and what each collects over all pages.
- **Runs** (`runs.dfy`): finite sequences of clock ticks, deposits, interface transfers and the six
  instructions over one pool. A tick may set the clock to any time.

## Main results

1. *Safety over runs* (`settlement.dfy`). In every run from an empty nullifier set, every order note is
   settled by exactly one step once its nullifier is published and by none before: taken inside its
   window on the rail its terms name, for exactly the agreed payments, on the encrypted rail only by
   the committed taker; or cancelled after its window by its maker, for a full refund. This holds **if
   and only if** no make of the run spends an order note. A caller's sufficient check is that every note
   a make spends carries no data. The escrow has the same theorem (`escrow_safety.dfy`). Neither
   condition is redundant: `MakeLiveness.MakeChangeIsFree` and `EscrowLiveness.EscrowChangeIsFree` give,
   for every live note of nonzero amount, an accepted step that breaks it.
2. *Recovery* (`recovery.dfy`). After any accepted derived take the maker derives the hash of its payout
   from its own opening and the first published nullifier; after any accepted encrypted take it
   decrypts the payout's asset, amount and blinding from the last output. Circuit, processor and SDK
   are all used.
3. *Acceptance and completeness* (`acceptance.dfy`, `builders.dfy`, `swap_sdk.dfy`, `escrow.dfy`). For every
   processor, exactly which instructions it forwards and the error of every other, with the public input
   and the circuit resolved into conditions on the transaction and its notes. For every builder, exactly
   which parameters it accepts, and the exact extra condition under which its witness satisfies its circuit.
4. *Progress* (`make_liveness.dfy`, `take_liveness.dfy`, `cancel_liveness.dfy`, `escrow_liveness.dfy`,
   `settleable.dfy`). What the SDK builds is accepted and settles the order. From any state on, with the
   clock not turned back, a live order can still be settled exactly when it allows a cancel (a plain
   ed25519 maker, a nonzero source, an expiry the signed clock can pass), or its window has not passed
   and it allows a take; inside its window the take is on the rail that its mode names. The escrow has the
   corresponding result for withdraws.
5. *Accounting* (`accounting.dfy`, `conservation.dfy`). Every accepted step creates of each asset what it
   spends, and a make or an escrow step spends exactly one note, worth its change and what it locks. For orders and for escrows, per asset, in every run and at every
   moment: what is locked, released and respent by lock steps together is what was there and what
   entered. So from an empty pool the locked value is what was newly locked minus what was released
   exactly when nothing was respent, which the guard ensures. Each release leaves one live note fewer.
   Locking a note that was appended before locks nothing new: both leaves have one nullifier, so the
   source it spends is lost, and the sums say by how much.
6. *Binding* (`binding.dfy`). An accepted proof fixes the nonzero inputs and outputs of what is
   forwarded, in order; zero padding is invisible.
7. *Discovery* (`scan.dfy`, `discovery.dfy`, `marker.dfy`, `poll.dfy`, `indexing.dfy`). Soundness for the
   taker and the maker for every ciphertext format and key derivation, and the round trip for every
   format that opens what it seals, from the registry's own entries. Exactly which transactions yield which
   orders is an equivalence on both sides. Over all pages the maker's collection never fails on a transaction
   and finds exactly its orders; the taker's succeeds exactly when every transaction under its tag
   carries an order, so one message under the tag that is no marker makes the whole collection fail.
8. *End to end* (`lifecycle.dfy`, `end_to_end.dfy`). The SDK's make with the order's sealed payload is
   accepted; taker and maker each read exactly the order back from what the indexer serves of it; the
   order is live, from there it can be settled exactly as its terms allow, and every collection that fetches
   the transaction and succeeds contains the order.

## Where the code and its documents differ

The model follows the code.

- The document says that the program alone can move a locked note, and only by settling the order or
  refunding the maker (`swap-program/swap_program.md:11-13`), and that the order authority signs only
  through a take or a cancel (`swap-program/swap_program.md:153-156`). In the code a make's pool call
  carries that signature too (`swap-program/program/src/instructions/make.rs:80`), and its proof leaves
  the source input hash and the new order's terms free
  (`swap-program/prover/circuits/make/make.go:31-32`). So the claim holds of exactly those runs in which
  no make spends an order note, and `MakeLiveness.MakeChangeIsFree` shows what happens in the others. The
  escrow's lock step is alike (`escrow-program/program/src/instructions/escrow.rs:54`), also before the
  unlock time.
- A zero-amount change output is folded into the private transaction hash like any other
  (`swap-program/sdk/src/instructions/make/proof.rs:67-74`), although the document says it contributes
  nothing (`swap-program/swap_program.md:401-402`).
- The marker must arrive empty; the program writes its 64 bytes
  (`swap-program/program/src/instructions/make.rs:67-75`). It reads the order hash off position 1 of the
  raw outputs, so a padding output among the first two makes the marker name something else
  (`Marker.MarkerNamesOrder`, and `MakeLiveness.GapMisnamesOrder` for an accepted make of that shape, which
  rests on the pool allowing three outputs with a zero hash between the two notes; the repository shows
  makes of two outputs only).
- Payout blindings go through a seed derived from the order blinding
  (`swap-program/sdk/src/instructions/take/derivation.rs:9-13`).
- Signers and the committed taker enter the hashes as the tagged Solana identity
  (`swap-program/program/src/instructions/cancel.rs:67-69`,
  `swap-program/sdk/src/state/order.rs:119-123`).

## Model

| member | source | states |
|---|---|---|
| `Settlement.OrdersSettleExactlyOnce` | swap-program/prover/circuits/take/take.go:19-111 | over every run: each order is settled exactly once if its nullifier is published and never otherwise, if and only if no make spends an order note |
| `Settlement.SettledOnceIff` | swap-program/prover/circuits/make/make.go:27-36 | for one order of one run: settled exactly once if spent, just when no make of the run spends it |
| `Settlement.SettledOnceMeaning` | swap-program/program/src/instructions/take.rs:52-87 | settling exactly once, step by step: a published nullifier means some step settled the order, and no two steps do |
| `Settlement.SpentIffSettled` | swap-program/program/src/instructions/shared.rs:22-57 | in any accepted step but a make, an order note is spent exactly when the step settles the order: mode 0 by a derived take, mode 1 by an encrypted one, in the window, with the signer and the payments of its own terms |
| `Settlement.CorePays` | swap-program/prover/circuits/take/take.go:62-111 | of a take's two inputs only the first can be an order note, and then both payouts are exactly those the terms name |
| `Settlement.TakerSigned` | swap-program/prover/circuits/take_verifiable_encryption/take.go:24-36 | the key committed as taker signs every accepted encrypted take of its order |
| `Settlement.CancelSettles` | swap-program/prover/circuits/cancel/cancel.go:25-74 | a bound cancel spends the order exactly when it refunds the whole source to the maker, who signed, after expiry |
| `Settlement.PlainNotesAreNoOrders` | swap-program/prover/circuits/make/make.go:31-32 | spending only notes without data is enough for the guard on makes |
| `Runs.StepOnNote` | swap-program/program/src/instructions/shared.rs:42-57 | for a note owned by a program authority: its nullifier appears exactly when a step spends it, and only its own program's steps can |
| `Runs.SpentOnce` | swap-program/swap_program.md:378-380 | in every run an authority's note is spent by one step if its nullifier was published and by none otherwise |
| `Recovery.DerivedPayoutRecovered` | swap-program/sdk/src/state/order.rs:266-278 | after any accepted derived take, the output the maker derives from its opening and the first published nullifier hashes to the second commitment appended, whatever the ciphertexts |
| `Recovery.DerivedOutputIsPayout` | swap-program/prover/circuits/take/take.go:23-37 | the circuit's blinding derivation is the one the maker repeats |
| `Recovery.EncryptedPayoutRecovered` | swap-program/program/src/instructions/take_verifiable_encryption.rs:43-95 | after any accepted encrypted take, the last output's data decrypts to the payout's asset, amount and blinding, and the rebuilt note is the one appended |
| `Binding.TransactBinds` | swap-program/swap_program.md:399-402 | equal private transaction hashes mean equal nonzero inputs and outputs, in order, and equal blinding |
| `Binding.PaddingIsInvisible` | swap-program/prover/circuits/make/make.go:30-35 | zero entries anywhere leave the private transaction hash unchanged |
| `Binding.MakeBinds` | swap-program/prover/circuits/make/make.go:23-53 | an accepted make spends the proved source input only and appends the change and the order, in that order; of its transaction only the messages change |
| `Binding.TakeBinds` | swap-program/program/src/instructions/take.rs:39-87 | an accepted derived take is of mode 0 and forwards exactly the proved notes, in its window, on the first nullifier it was proved for |
| `Binding.VerifiableTakeBinds` | swap-program/program/src/instructions/take_verifiable_encryption.rs:43-102 | an accepted encrypted take is of mode 1 and forwards exactly the proved notes, and its last output carries exactly the proof's ciphertext |
| `Binding.CancelBinds` | swap-program/program/src/instructions/cancel.rs:47-101 | an accepted cancel spends the order and appends the refund, after expiry, signed by the second account, whose identity is the proof's maker key |
| `Binding.EscrowBinds` | escrow-program/prover/circuits/escrow/escrow.go:23-50 | an accepted escrow spends the proved source input only and appends the change and the escrow note |
| `Binding.WithdrawBinds` | escrow-program/program/src/instructions/withdraw.rs:47-102 | an accepted withdraw spends the escrow note and appends the refund, after unlock, signed by the second account, whose identity opens the owner hash |
| `SwapSdk.MakeComplete` | swap-program/sdk/src/instructions/make/proof.rs:42-83 | a built make witness satisfies the circuit exactly when both amounts are nonzero and the take mode is boolean |
| `SwapSdk.ChangeIsAlwaysFolded` | swap-program/sdk/src/instructions/make/proof.rs:67-74 | change and order are both entries of the hashed outputs, whatever the change amount |
| `SwapSdk.TakeComplete` | swap-program/sdk/src/instructions/take/proof.rs:30-124 | a built derived-take witness satisfies the circuit exactly when both amounts are nonzero, for the public input the processor computes |
| `SwapSdk.TakeBlindingsChecked` | swap-program/sdk/src/instructions/take/proof.rs:65-85 | the builder's three blinding checks are the circuit's derivation |
| `SwapSdk.VerifiableTakeComplete` | swap-program/sdk/src/instructions/take_verifiable_encryption/proof.rs:27-108 | a built encrypted-take witness satisfies the circuit exactly when both amounts are nonzero and the committed taker is the Solana key owning the taker input |
| `SwapSdk.CancelComplete` | swap-program/sdk/src/instructions/cancel/proof.rs:24-70 | a built cancel witness satisfies the circuit exactly when the source amount is nonzero, for the public input the processor computes from the maker's identity |
| `SwapSdk.CoreOfCheckedOutputs` | swap-program/sdk/src/shared.rs:40-64 | the checks both takes share fix all four notes and the taker |
| `SwapSdk.CiphertextsAgree` | swap-program/prover/circuits/take_verifiable_encryption/take.go:49-59 | the circuit encrypts exactly the 72 bytes the SDK encrypts |
| `SwapSdk.DecryptEncrypted` | swap-program/sdk/src/instructions/take_verifiable_encryption/encryption.rs:13-65 | decryption under the same order blinding returns the mint hash, the amount and the blinding, for all inputs |
| `SwapSdk.DestinationCiphertextWithHash` | swap-program/sdk/src/instructions/take_verifiable_encryption/encryption.rs:18-36 | filling and encrypting the buffer in place gives the specified ciphertext, and its hash |
| `SwapSdk.DecryptDestination` | swap-program/sdk/src/instructions/take_verifiable_encryption/encryption.rs:38-65 | decrypting in place and splitting at 8, 40 and 72 gives the specified payout |
| `VerifiableTakeCircuit.CheckVerifiableEncryption` | swap-program/prover/circuits/take_verifiable_encryption/take.go:49-59 | the circuit's 72-cell buffer, filled and encrypted in place, hashes to the ciphertext the proof commits to |
| `Cipher.KeystreamInvolution` | swap-program/sdk/src/instructions/take_verifiable_encryption/encryption.rs:28-33 | applying the keystream twice is the identity |
| `Cipher.SymmetricApply` | swap-program/sdk/src/instructions/take_verifiable_encryption/encryption.rs:43-48 | the in-place loop XORs every byte with its own keystream byte and nothing else |
| `Order.RepresentationsAgree` | swap-program/sdk/src/state/order.rs:169-229 | the note minted and the note spent have one commitment and one nullifier, for every viewing key, tree and leaf index |
| `Order.LeafIffOpening` | swap-program/sdk/src/state/order.rs:93-111 | two orders share a leaf, or a nullifier, exactly when terms, blinding, source asset, source amount and tree agree |
| `OrderTermsCircuit.DataHashInjective` | swap-program/prover/circuits/orderterms/orderterms.go:30-45 | the data hash fixes all seven terms |
| `Order.DeserializeSerialized` | swap-program/sdk/src/state/order.rs:154-164 | the note payload decodes to what was encoded |
| `Order.SerializeDeserialized` | swap-program/sdk/src/state/order.rs:154-164 | every decodable payload is the encoding of what it decodes to |
| `Order.TakeBlindingSeedFromTag` | swap-program/sdk/src/instructions/take/derivation.rs:9-13 | the SDK's tag bytes in a zeroed buffer hash to the seed under the circuit's numeric domain |
| `Ideal.U64RightAlign` | swap-program/program/src/instructions/shared.rs:15-19 | the filled buffer is the canonical encoding of the value as a field element |
| `Ideal.HashvOfEncodings` | swap-program/program/src/instructions/take.rs:40-48 | hashing encodings as byte strings is Poseidon on the elements |
| `CancelLiveness.CancelLands` | swap-program/sdk/src/instructions/cancel/proof.rs:24-70 | past expiry, the cancel the SDK builds for a live order of an ed25519 maker is accepted and settles it, for every output tree and blinding |
| `CancelLiveness.CancelWindowOpens` | swap-program/program/src/instructions/shared.rs:31-37 | a clock value past the expiry exists exactly when the expiry is below the largest signed 64-bit time |
| `CancelLiveness.WindowsPartitionTime` | swap-program/program/src/instructions/shared.rs:22-37 | at every nonnegative time exactly one of the two windows is open, at a negative time neither |
| `Lifecycle.NoOrderIsStranded` | swap-program/program/src/instructions/shared.rs:31-37 | every run leading to a live order of a plain ed25519 maker with a passable expiry can be continued, the clock not turned back, to a cancel that settles it |
| `TakeLiveness.VerifiableTakeLands` | swap-program/sdk/src/instructions/take_verifiable_encryption/proof.rs:27-108 | inside the window, an encrypted take the SDK builds for the committed taker is accepted and settles the order |
| `Built.TakeConserves` | swap-program/prover/circuits/take/take.go:80-111 | both takes conserve every asset by the circuit's equalities alone |
| `Built.CancelConserves` | swap-program/prover/circuits/cancel/cancel.go:55-69 | a cancel conserves every asset by the circuit's equalities alone |
| `Accounting.LockedValue` | swap-program/prover/circuits/make/make.go:30-53 | for orders and for escrows, in every run without a guard: locked plus released plus respent is what was there plus what entered |
| `Accounting.StepOnLiveNotes` | swap-program/program/src/instructions/take.rs:52-87 | for orders and for escrows, one step adds the notes it appends and removes the one it releases and those it respends, and all three changes are real |
| `Accounting.SettlementRemovesItsOrder` | swap-program/program/src/instructions/cancel.rs:60-101 | a settlement removes exactly its order from the live ones and adds none: one live order fewer |
| `Accounting.EnteredIsMade` | swap-program/prover/circuits/make/make.go:27-36 | of all program steps only a make appends an order note, and only an escrow step an escrow note: the one it proves |
| `Accounting.LockedIsMadeMinusGone` | swap-program/prover/circuits/take/take.go:80-85 | from an empty pool, for either kind, per asset and at every step: locked is newly locked minus released minus respent, and locked is newly locked minus released exactly when nothing was respent |
| `Accounting.EscrowedIsMadeMinusReturned` | escrow-program/prover/circuits/withdraw/withdraw.go:53-67 | in a guarded run from an empty pool, per asset and at every step, the value in live escrows is what escrow steps newly locked minus what withdraws returned |
| `Accounting.RespentIff` | swap-program/prover/circuits/make/make.go:31-32 | the guard holds of a step exactly when it respends nothing |
| `Accounting.ReleaseRemovesItsNote` | escrow-program/program/src/instructions/withdraw.rs:60-102 | a release removes exactly its note from the live ones of its kind and adds none |
| `Accounting.LockAddsItsNote` | swap-program/program/src/instructions/make.rs:40-81 | a guarded make or escrow step only adds its note, and the note it adds is live |
| `Marker.StripThenFill` | swap-program/sdk/src/instructions/make/instruction.rs:40-80 | blanking by the SDK and filling by the program forward the original transaction unchanged exactly when its marker encodes output 1's hash and the payer's key |
| `Marker.MakeInstruction` | swap-program/sdk/src/instructions/make/instruction.rs:41-67 | clears the first message only and builds the account list, payer twice, authority last |
| `Marker.MarkerNamesOrder` | swap-program/program/src/instructions/make.rs:40-75 | after an accepted make the marker names the order note and the payer, who signed, exactly when neither of the first two outputs is padding |
| `EscrowSafety.EscrowsReturnExactlyOnce` | escrow-program/prover/circuits/withdraw/withdraw.go:25-72 | over every run: each escrow is returned exactly once if its nullifier is published and never otherwise, after unlock, on its creator's signature and to its creator, if and only if no escrow step spends an escrow note |
| `EscrowSafety.WithdrawReturns` | escrow-program/program/src/instructions/withdraw.rs:60-102 | an accepted withdraw spends an escrow note exactly when it returns it |
| `EscrowSafety.EscrowLeafIffOpening` | escrow-program/sdk/src/state/escrow.rs:78-133 | two escrows share a leaf exactly when asset, amount, blinding, tree, unlock time and the creator's keys agree |
| `EscrowSdk.EscrowTerms.DataHash` | escrow-program/prover/circuits/escrowterms/escrowterms.go:14-16 | the SDK's hash of the escrow terms is the circuit's |
| `EscrowSdk.EscrowComplete` | escrow-program/sdk/src/instructions/escrow/proof.rs:42-83 | a built escrow witness satisfies the circuit exactly when the amount is nonzero |
| `EscrowSdk.WithdrawComplete` | escrow-program/sdk/src/instructions/withdraw/proof.rs:22-67 | a built withdraw witness satisfies the circuit exactly when the amount is nonzero, for the public input the processor computes |
| `Scan.CollectUnifiedSlots` | swap-program/sdk/src/index/scan.rs:22-39 | the single pass with a running index yields the specified slots |
| `Scan.UnifiedIndicesIncrease` | swap-program/sdk/src/index/scan.rs:27-29 | decryption indices are strictly increasing |
| `Scan.OutputCarriesOrder` | swap-program/sdk/src/state/order.rs:169-193 | the output the SDK builds, decrypted, carries the order's payload in its first utxo-data record |
| `TakerDiscovery.IntoOrderIff` | swap-program/sdk/src/index/taker.rs:79-110 | for an order's leaf the candidate is accepted exactly when it rebuilds that order's opening, maker address included |
| `TakerDiscovery.TakerOrderSound` | swap-program/sdk/src/index/taker.rs:41-110 | an order returned for an order's leaf is that order, the asset ids included under an injective registry |
| `MakerDiscovery.ScanMaker` | swap-program/sdk/src/index/maker.rs:34-78 | the scanning loop with its skips returns the first order a slot yields |
| `MakerDiscovery.MakerOrderSound` | swap-program/sdk/src/index/maker.rs:51-76 | the order returned sits on a leaf of the transaction, belongs to the scanning maker, and is the one order of that leaf |
| `Poll.CollectTagged` | swap-program/sdk/src/index/poll.rs:30-55 | the paging loop terminates and returns what the chain of pages specifies, the first error included |
| `Poll.CollectedIsScan` | swap-program/sdk/src/index/poll.rs:40-54 | pagination is invisible: collecting over a chain is scanning what was fetched once, in order; a scan error comes before the fetch error that would follow it |
| `Poll.ScanAllFirstError` | swap-program/sdk/src/index/poll.rs:44-48 | the error of a failed scan is the first one: every earlier scan succeeded |
| `Poll.ScanAllExactly` | swap-program/sdk/src/index/poll.rs:44-48 | scanning succeeds exactly when no scan fails, and yields the successful scans in order and once each |
| `Poll.IndexUntil` | swap-program/sdk/src/index/poll.rs:12-28 | returns only a non-empty collection, the first error, or a timeout after empty attempts only |
| `Settlement.PlainMakesAreOrderly` | swap-program/sdk/src/instructions/make/proof.rs:41-84 | a run whose makes all spend notes without data settles every order exactly once or leaves it unspent |
| `Settlement.PublishedIffSettled` | swap-program/program/src/instructions/take.rs:52-87 | any step but a make publishes exactly the nullifiers of the orders it settles |
| `MakeLiveness.MakeChangeIsFree` | swap-program/prover/circuits/make/make.go:30-53 | the document's claim that a locked note moves only by settlement fails: for every live order, every recipient and every part of the source short of the whole, at any nonnegative time, there is an accepted make that spends the order note, settles nothing and pays that part to the recipient |
| `MakeLiveness.MakeCanSpendAnOrder` | swap-program/program/src/instructions/make.rs:40-81 | the guard on makes cannot be dropped: every live order of nonzero amount can be spent by an accepted make at any nonnegative time |
| `MakeLiveness.MakeLands` | swap-program/sdk/src/instructions/make/proof.rs:41-84 | a make the SDK builds with nonzero amounts and a boolean mode, over a spendable source that covers it and with any published order data, is accepted, spends the source and appends change and order, with or without a padding output between them |
| `MakeLiveness.GapMisnamesOrder` | swap-program/program/src/instructions/make.rs:59-75 | if the pool allows a padding output between change and order, the make of that shape is accepted and the marker written names the zero hash |
| `TakerDiscovery.SealedRoundTrip` | swap-program/sdk/src/index/taker.rs:41-110 | from a transaction that seals the order's payload for the taker at its slot index, among any slots of other leaves, and whose first message under its tag is the marker, the taker gets the order back, for every registry that lists both assets and every format that opens what it seals |
| `MakerDiscovery.SealedRoundTrip` | swap-program/sdk/src/index/maker.rs:34-106 | from a transaction whose key derives from one of its nullifiers, at any position, the maker gets its order back, for every registry that lists both assets, whatever slots without order data precede it and whatever slots follow |
| `CancelLiveness.CancellableIff` | swap-program/program/src/instructions/cancel.rs:60-101 | an order can be cancelled at all exactly when its maker is a plain ed25519 key, its source is nonzero and its expiry is below the largest signed 64-bit time |
| `Settleable.CanBeSettledIff` | swap-program/program/src/instructions/shared.rs:22-37 | from any state with the order live, on a clock that is not turned back, the order can still be settled exactly when it allows a cancel, or its window has not passed and it allows a take |
| `Settleable.SettledOrder` | swap-program/prover/circuits/take/take.go:62-93 | a step settling an order past expiry shows that the order allows a cancel, one before it that it allows a take |
| `TakeLiveness.TakeLands` | swap-program/sdk/src/instructions/take/proof.rs:30-124 | inside the window, a derived take the SDK builds for a live order is accepted and settles it, for a taker note under either kind of key |
| `Accounting.LockedIsMadeMinusSettled` | swap-program/prover/circuits/make/make.go:40-53 | from an empty pool, per asset and at every step, the locked source value is the sum newly locked by makes minus the sum taken minus the sum cancelled; the sum newly locked is the sum proved minus the sum proved again |
| `Accounting.RepeatedLockLocksNothing` | swap-program/prover/circuits/make/make.go:40-45 | a make or escrow step whose note was appended before spends its source and leaves the live notes as they were |
| `EscrowLiveness.EscrowLands` | escrow-program/sdk/src/instructions/escrow/proof.rs:42-83 | an escrow the SDK builds over a covering source is accepted, spends the source and appends change and escrow |
| `EscrowLiveness.EscrowChangeIsFree` | escrow-program/prover/circuits/escrow/escrow.go:23-50 | for every live escrow, every recipient and every part of its amount short of the whole, at any nonnegative time, there is an accepted escrow step that spends the note, returns nothing and pays that part to the recipient |
| `EscrowLiveness.EscrowCanSpendAnEscrow` | escrow-program/program/src/instructions/escrow.rs:31-55 | the guard on escrow steps cannot be dropped: every live escrow of nonzero amount can be spent by an accepted one |
| `EscrowLiveness.WithdrawLands` | escrow-program/sdk/src/instructions/withdraw/proof.rs:22-67 | past unlock, the withdraw the SDK builds for a live escrow of an ed25519 creator is accepted and returns it |
| `EscrowLiveness.WithdrawableIff` | escrow-program/program/src/instructions/withdraw.rs:60-102 | an escrow can be withdrawn at all exactly when its creator is a plain ed25519 key, its amount is nonzero and its unlock time is below the largest signed 64-bit time |
| `EscrowLiveness.NoEscrowIsStranded` | escrow-program/program/src/instructions/shared.rs:22-30 | every run leading to a live escrow that allows a withdraw can be continued, the clock not turned back, to one that returns it |
| `EscrowSafety.PlainEscrowsReturn` | escrow-program/prover/circuits/escrow/escrow.go:29-30 | a run whose escrow steps all spend notes without data returns every escrow exactly once or leaves it locked |
| `Order.TermsProofInput.DataHash` | swap-program/prover/circuits/orderterms/orderterms.go:30-45 | for a decoded viewing key, the SDK's byte-string hash of the terms succeeds and is the circuit's data hash |
| `Scan.UnifiedSlotsExactly` | swap-program/sdk/src/index/scan.rs:20-39 | the result is exactly the confidential slots in order, each with the number of data-bearing slots before it |
| `Chain.Ledger.ProcessMake` | swap-program/program/src/instructions/make.rs:40-81 | an accepted make has a signing payer, extends the ledger's run by its step, spends the proved source only, appends change and order, and adds only its order to the live ones when it spends none; a refused one changes nothing, and one whose message carries data is refused |
| `Chain.Ledger.ProcessTake` | swap-program/program/src/instructions/take.rs:52-87 | an accepted take has a signing payer, extends the run by its step, is of mode 0 inside its window on the proved notes, and publishes exactly the nullifiers of the orders it settles; a refused one changes nothing |
| `Chain.Ledger.ProcessVerifiableTake` | swap-program/program/src/instructions/take_verifiable_encryption.rs:62-102 | likewise of mode 1, with the proof's ciphertext in the last output |
| `Chain.Ledger.ProcessCancel` | swap-program/program/src/instructions/cancel.rs:60-101 | an accepted cancel extends the run by its step, is past expiry and signed by the payer and the maker, and publishes exactly the nullifiers of the orders it refunds; a refused one changes nothing |
| `Chain.Ledger.ProcessEscrow` | escrow-program/program/src/instructions/escrow.rs:31-55 | an accepted escrow has a signing payer, extends the run by its step, appends change and escrow note, and publishes no order nullifier; a refused one changes nothing |
| `Chain.Ledger.ProcessWithdraw` | escrow-program/program/src/instructions/withdraw.rs:60-102 | an accepted withdraw extends the run by its step, is past unlock and signed by the payer and the creator, and publishes exactly the nullifiers of the escrows it returns; a refused one changes nothing |
| `Chain.Ledger.TransferNotes` | swap-program/swap_program.md:150-153 | a transfer that no authority signs publishes no order's and no escrow's nullifier, whatever it carries |
| `Chain.Ledger.OrdersSettledOnce` | swap-program/program/src/instructions/shared.rs:42-57 | after any calls on the ledger, every order is settled exactly once or unspent, if and only if no accepted make spent an order note |
| `Chain.Ledger.EscrowsReturnedOnce` | escrow-program/program/src/instructions/shared.rs:33-49 | after any calls on the ledger, the same for escrows and accepted escrow steps |
| `Chain.Ledger.LiveValue` | swap-program/prover/circuits/make/make.go:40-53 | after any calls on the ledger, the value in its live orders, or escrows, is what was newly locked minus released minus respent, and nothing is respent under the guard |
| `EndToEnd.FromMakeToSettlement` | swap-program/sdk/src/instructions/make/instruction.rs:20-80 | a make the SDK builds with the order's sealed payload is accepted; the taker and the maker each read exactly the order back from what is served of it; the order is live and can be settled exactly when it allows a cancel, or its window has not passed and it allows a take |
| `Lifecycle.TakerDiscoversMade` | swap-program/program/src/instructions/make.rs:59-75 | the transaction of any accepted make without padding among its first two outputs gives the taker whose tag it bears exactly the committed order, with the payer, who signed, as its maker |
| `Lifecycle.MakerDiscoversMade` | swap-program/sdk/src/index/maker.rs:34-78 | the same transaction gives the maker its order back |
| `Indexing.CollectTakerOrders` | swap-program/sdk/src/index/taker.rs:120-133 | one collection of the taker: the paging loop yields the specified collection, failing first without a view tag |
| `Indexing.CollectsExactly` | swap-program/sdk/src/index/poll.rs:30-55 | on a chain that fetches, collecting succeeds exactly when every scan does, and finds the orders of exactly the transactions that yield one, in order and once each |
| `Indexing.CollectsFirstError` | swap-program/sdk/src/index/poll.rs:38-48 | a collection fails with its first scan error or, if no scan fails, with the fetch error |
| `Indexing.TakerPassesOverIff` | swap-program/sdk/src/index/taker.rs:41-61 | the taker's scan passes over a transaction exactly when no message bears its tag |
| `Indexing.TakerCollectsIff` | swap-program/sdk/src/index/taker.rs:113-133 | the taker's collection succeeds exactly when every fetched transaction under its tag carries an order; one message under the tag whose data is not 64 bytes makes it fail |
| `Indexing.TakerFindsIff` | swap-program/sdk/src/index/taker.rs:113-133 | the scan of one transaction yields an order with a maker key exactly when the key's registered address is the order's maker, both assets are listed, the first message under the tag marks the order's leaf with that key, and the first confidential slot of that leaf decodes to the order |
| `Indexing.TakerFindsSealed` | swap-program/sdk/src/index/taker.rs:120-131 | of a transaction that seals an order for the taker and bears its marker the scan yields exactly that order when the marked key is registered at the order's maker, and fails otherwise |
| `Indexing.TakerCollectsSealed` | swap-program/sdk/src/index/taker.rs:113-133 | every collection that fetched such a transaction and succeeds contains the order |
| `Indexing.MakerCollectsSealed` | swap-program/sdk/src/index/maker.rs:108-117 | the scan of a transaction the maker wrote yields its order, and every collection that fetched it and succeeds contains the order |
| `Indexing.IndexTaker` | swap-program/sdk/src/index/taker.rs:113-133 | polling returns the first collection that finds an order or fails, and times out after empty ones only |
| `Indexing.TakerCollectsSoundly` | swap-program/sdk/src/index/taker.rs:78-110 | every order the taker collects opens the leaf its transaction marks, at the address registered for the marked maker |
| `Indexing.MakerCollectsAlways` | swap-program/sdk/src/index/maker.rs:108-117 | the maker's collection succeeds on every chain that fetches and finds exactly the orders |
| `Acceptance.MakeForwarded` | swap-program/program/src/instructions/make.rs:40-81 | a make is forwarded exactly when the payer signs and is writable, the notes are a sound order's and its change and hash to the transaction, the one message is empty and the authority is forwarded; the marker filled in is output 1's hash and the payer's key |
| `Acceptance.TakeForwarded` | swap-program/program/src/instructions/take.rs:39-87 | a derived take is forwarded, unchanged, exactly when the payer signs, the clock is in the window, the four notes are the exchange of a mode-0 order, every blinding derives from the first nullifier, and hash, deadline and first nullifier are the transaction's own |
| `Acceptance.VerifiableTakeForwarded` | swap-program/program/src/instructions/take_verifiable_encryption.rs:43-102 | an encrypted take is forwarded exactly when the four notes are the exchange of a mode-1 order, the taker's note belongs to the committed taker, and the last output is the sealed payout |
| `Acceptance.CancelForwarded` | swap-program/program/src/instructions/cancel.rs:47-101 | a cancel is forwarded exactly when payer and maker sign, the expiry has passed, and the whole amount of an order of that expiry goes to the owner hash the maker's identity opens |
| `Acceptance.EscrowForwarded` | escrow-program/program/src/instructions/escrow.rs:31-55 | an escrow step is forwarded exactly when the payer signs and the notes are an escrow's and its change and hash to the transaction |
| `Acceptance.WithdrawForwarded` | escrow-program/program/src/instructions/withdraw.rs:47-102 | a withdraw is forwarded exactly when payer and creator sign, the unlock time has passed, and the whole amount goes to the owner hash the creator's identity opens |
| `Settlement.RailOfMode` | swap-program/prover/circuits/orderterms/orderterms.go:8-11 | an accepted derived take spends orders of mode 0 only, an accepted encrypted one orders of mode 1 only |
| `Settleable.TakenOnItsRail` | swap-program/swap_program.md:8-9 | inside its window a live order that allows a take is settled, once a note of the taker's is deposited, by a derived take if its mode is 0 and by an encrypted one if it is 1 |
| `Recovery.DerivedOutputIff` | swap-program/sdk/src/state/order.rs:266-278 | the maker can derive its payout exactly for an order of mode 0 and the encoding of a field element |
| `Conservation.StepConserves` | swap-program/swap_program.md:399-402 | every accepted step creates, of every asset, exactly what it spends |
| `Conservation.MakeIsFunded` | swap-program/prover/circuits/make/make.go:27-53 | an accepted make spends exactly one note, an appended one of the order's asset, worth change and order together |
| `Conservation.EscrowIsFunded` | escrow-program/prover/circuits/escrow/escrow.go:23-50 | an accepted escrow step likewise |
| `Builders.TakeBuilds` | swap-program/sdk/src/instructions/take/proof.rs:30-124 | the derived-take builder accepts exactly an order of mode 0, the exchange its terms describe and the derived blindings |
| `Builders.VerifiableTakeBuilds` | swap-program/sdk/src/instructions/take_verifiable_encryption/proof.rs:27-108 | the encrypted-take builder accepts exactly an order of mode 1 and that exchange |
| `Order.PayloadLayout` | swap-program/sdk/src/state/order.rs:36-43 | the payload is asset id, amount and expiry with the lowest byte first, the taker's 32 bytes, and the mode |
| `Order.OutputPublishesTerms` | swap-program/sdk/src/state/order.rs:169-193 | the minted note is addressed to the taker's viewing key and its published payload decodes to destination asset id, amount, expiry, taker and mode |
| `SwapSdk.DecryptsUnderItsKeyOnly` | swap-program/sdk/src/instructions/take_verifiable_encryption/encryption.rs:13-65 | the payout comes out of a ciphertext exactly under the order blinding it was made with |
| `Cipher.KeystreamAt` | swap-program/sdk/src/instructions/take_verifiable_encryption/encryption.rs:28-33 | each byte is changed by its own keystream byte and by no other |
| `Cipher.KeystreamInjective` | swap-program/sdk/src/instructions/take_verifiable_encryption/encryption.rs:13-33 | different keys give different ciphertexts |
| `Ideal.CanonicalIff` | swap-program/program/src/instructions/take.rs:39-48 | a 32-byte number is a field element's encoding exactly when it is below the modulus |
| `Marker.MetasSigners` | swap-program/sdk/src/instructions/make/instruction.rs:56-67 | of the accounts the make instruction names exactly the payer and the order authority sign the pool call |
| `TakerDiscovery.TakerOrderIff` | swap-program/sdk/src/index/taker.rs:41-110 | for every ciphertext format, exactly which order comes out of a transaction for a maker's address |
| `MakerDiscovery.OrderInSlotIff` | swap-program/sdk/src/index/maker.rs:51-106 | for every ciphertext format, exactly which order a slot yields the maker: the one of its leaf that is the maker's, with listed assets, to whose payload the body opens |
| `MakerDiscovery.MakerScanFailsIff` | swap-program/sdk/src/index/maker.rs:39-50 | the maker's scan fails exactly when it wrote the transaction and has no address of its own |
| `Scan.DataBearingCounts` | swap-program/sdk/src/index/scan.rs:25-31 | a slot's decryption index is the number of data-bearing slots before it |
| `EndToEnd.MadeIsIndexed` | swap-program/sdk/src/index/taker.rs:113-133 | every collection that fetched the made transaction and succeeds contains the order, and the taker's succeeds only if the payer is registered at the maker's address |
| `Scan.LawfulFormatExists` | swap-program/sdk/src/index/maker.rs:51-62 | the law the round trips assume of the ciphertext format is one a format can keep |

## Left out

- OrdersSettleExactlyOnce: holds under a condition on the makes of the run, because the unconditional claim is false of the code; see `MakeLiveness.MakeChangeIsFree`.
- EscrowsReturnExactlyOnce: carries the same condition on escrow steps, because the unconditional claim is false of the code; see `EscrowLiveness.EscrowChangeIsFree`.
- LockedIsMadeMinusSettled: counts only orders that entered by a make, under the guard; `Accounting.LockedValue` covers every run and notes that enter by a deposit or an interface transfer.
- GapMisnamesOrder: that the pool allows a three-output transaction with a zero hash in the middle is not shown by the repository.
- SealedRoundTrip: the ciphertext format is not part of this model; that it opens what it seals is a hypothesis (`Codec.Lawful`), shown satisfiable by `Scan.LawfulFormatExists`. Soundness assumes nothing about it.
- TakerDiscoversMade: discovery looks a leaf up under tree id 0 only, as the source does, and the payload must be sealed; `EndToEnd.FromMakeToSettlement` gives an accepted make for which both hold.
- MakerDiscoversMade: the same.
- CiphertextsAgree: the circuit's and the SDK's key-schedule labels are one shared constant; the SDK's label is not part of this model.
- DecryptDestination: a ciphertext that was not made under the order's key yields no amount, where the source returns whatever number its bytes spell.
- DecryptsUnderItsKeyOnly: rests on the ideal keystream, whose bytes never coincide for different keys.
- MetasSigners: the nullifier accounts are a parameter, taken to be no signers; the helper that derives them is not part of this model.
- DataHash: the viewing key of the terms is taken as already decoded, as it is in `OrderTerms`; decoding 32 bytes into a key can fail and is not part of this model.
- IndexUntil: the deadline is a number of attempts and sleeping is not modelled.
- Groth16, point decompression, verifying keys, key setup and the prover's foreign-function interface: a proof is its witness.
- The insides of Poseidon, `hash_bytes`, the nullifier and blinding derivations, AES-256-CTR and the key schedule: ideal constructors and a toggled keystream.
- `AssertTransactionBlindings`: the three derivation equalities the SDK checks.
- Field elements beyond 64-bit arithmetic: amounts are compared, never added, inside the circuits, so wrap-around at the modulus does not arise; blindings and nullifiers are taken in canonical form.
- The shielded-pool program beyond `Accepts`: Merkle paths, several trees, the relayer's fee, and the rule that a padding input publishes a nullifier disjoint from real ones. Its deadline is taken to be inclusive, it is taken to allow every number of inputs and outputs, and how it checks a P-256 signature is not part of this model.
- The wire format of instructions: an undecodable instruction is a missing one; account lists beyond signer, writable flag and address; the search for the authority's bump; compute budgets.
- The instruction builders of take, cancel, escrow and withdraw: account plumbing only; the account lists the progress results need are stated as conditions.
- The user registry's lookup of a maker's address: a function parameter.
- Prover witness string maps, the Rust and TypeScript clients, benches and network tests: input, output and process plumbing.
- Privacy and unlinkability.
