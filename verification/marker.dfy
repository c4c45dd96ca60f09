/** The order marker: blanked by the SDK's make instruction, written back by the program. */
module Marker {
  import opened Ideal
  import opened Notes
  import opened Pool
  import opened Runtime
  import opened SwapProgram
  import opened Binding
  import MakeCircuit

  /** OrderMarker::message. */
  function MarkerMessage(takerTag: seq<Byte>, orderUtxoHash: Bytes32, makerPubkey: Address): Message {
    Message(takerTag, MarkerBytes(orderUtxoHash, makerPubkey))
  }

  /** The first message keeps its tag and loses its data; the others stay. */
  function Blanked(messages: seq<Message>): (r: seq<Message>)
    ensures |r| == |messages|
    ensures forall i :: 0 <= i < |r| ==> r[i] == if i == 0 then Message(messages[0].viewTag, []) else messages[i]
  {
    if messages == [] then [] else [messages[0].(data := [])] + messages[1..]
  }

  // The accounts of a make instruction, which names the payer twice.
  datatype MakeAccounts = MakeAccounts(
    payer: Address, tree: Address, poolProgram: Address, systemProgram: Address, nullifierPdas: seq<Account>)
  {
    function Metas(): seq<Account> {
      [Account(payer, true, true), Account(payer, true, true), Account(tree, false, true),
       Account(poolProgram, false, false), Account(systemProgram, false, false), Account(tree, false, true)]
      + nullifierPdas
      + [Account(ORDER_AUTHORITY, false, false)]
    }
  }

  /** Make::instruction: clears the first message and grows the account list. */
  method MakeInstruction(a: MakeAccounts, proof: MakeCircuit.Witness, sppProof: Transact)
    returns (accounts: seq<Account>, ix: MakeIx)
    ensures accounts == a.Metas()
    ensures ix == MakeIx(proof, sppProof.(messages := Blanked(sppProof.messages)))
  {
    var messages := sppProof.messages;
    if |messages| > 0 {
      messages := messages[0 := messages[0].(data := [])];
    }
    ix := MakeIx(proof, sppProof.(messages := messages));
    accounts := [Account(a.payer, true, true), Account(a.payer, true, true), Account(a.tree, false, true),
                 Account(a.poolProgram, false, false), Account(a.systemProgram, false, false),
                 Account(a.tree, false, true)];
    accounts := accounts + a.nullifierPdas;
    accounts := accounts + [Account(ORDER_AUTHORITY, false, false)];
  }

  lemma MetasForwardAuthority(a: MakeAccounts)
    ensures NextSignerMut(a.Metas()) == Ok(a.payer)
    ensures Forwarded(a.Metas()[1..], ORDER_AUTHORITY)
  {
    var forwarded := a.Metas()[1..];
    assert forwarded[|forwarded| - 1].address == ORDER_AUTHORITY;
  }

  /** What the pool call gets: after the payer that the processor consumes, the payer once more as a
      signer that pays the pool's fee, both mentions of the tree writable, and the order authority last,
      unsigned. */
  lemma MetasForwarded(a: MakeAccounts)
    ensures var forwarded := a.Metas()[1..];
            && |forwarded| == |a.nullifierPdas| + 6
            && forwarded[0] == Account(a.payer, true, true)
            && forwarded[1] == forwarded[4] == Account(a.tree, false, true)
            && forwarded[2] == Account(a.poolProgram, false, false)
            && forwarded[3] == Account(a.systemProgram, false, false)
            && (forall i :: 0 <= i < |a.nullifierPdas| ==> forwarded[5 + i] == a.nullifierPdas[i])
            && forwarded[|forwarded| - 1] == Account(ORDER_AUTHORITY, false, false)
  {
    var fixed := [Account(a.payer, true, true), Account(a.tree, false, true), Account(a.poolProgram, false, false),
                  Account(a.systemProgram, false, false), Account(a.tree, false, true)];
    var last := [Account(ORDER_AUTHORITY, false, false)];
    assert a.Metas()[1..] == fixed + a.nullifierPdas + last;
  }

  lemma OthersDoNotSign(a: MakeAccounts, x: Account)
    requires forall i :: 0 <= i < |a.nullifierPdas| ==> !a.nullifierPdas[i].isSigner
    requires x in a.Metas()[1..] && x.address != a.payer
    ensures !x.isSigner
  {
    var forwarded := a.Metas()[1..];
    MetasForwarded(a);
    var i :| 0 <= i < |forwarded| && forwarded[i] == x;
    if 5 <= i < |forwarded| - 1 {
      assert forwarded[5 + (i - 5)] == a.nullifierPdas[i - 5];
    }
  }

  /** So the payer and the order authority sign the pool call, and, the nullifier accounts being no
      signers, nobody else does. */
  lemma MetasSigners(a: MakeAccounts)
    requires forall i :: 0 <= i < |a.nullifierPdas| ==> !a.nullifierPdas[i].isSigner
    ensures CallSigners(a.Metas()[1..], ORDER_AUTHORITY)
            == {SolanaIdentity(a.payer), SolanaIdentity(ORDER_AUTHORITY)}
  {
    var forwarded := a.Metas()[1..];
    MetasForwarded(a);
    assert forwarded[0] in forwarded && forwarded[|forwarded| - 1] in forwarded;
    forall x | x in forwarded && x.address != a.payer
      ensures !x.isSigner
    {
      OthersDoNotSign(a, x);
    }
  }

  /** Filling what was blanked gives back the transaction exactly when its marker named the second
      output and the payer. */
  lemma FillBlanked(payer: Address, tx: Transact)
    requires |tx.outputs| >= 2 && |tx.messages| == 1
    ensures FillMarker(payer, tx.(messages := Blanked(tx.messages))) == Ok(tx)
            <==> tx.messages[0].data == MarkerBytes(tx.outputs[1].utxoHash, payer)
  {
    var blank := tx.(messages := Blanked(tx.messages));
    assert blank.messages == [tx.messages[0].(data := [])];
    assert tx.messages == [tx.messages[0]];
  }

  /** The instruction the SDK builds for a proved transaction is forwarded unchanged exactly when
      the transaction's one marker encodes output 1's hash and the payer's key. */
  lemma StripThenFill(a: MakeAccounts, proof: MakeCircuit.Witness, tx: Transact)
    requires |tx.outputs| >= 2 && |tx.messages| == 1
    requires Dec(tx.privateTxHash).Some? && MakeCircuit.Define(Dec(tx.privateTxHash).value, proof)
    ensures MakeCall(a.Metas(), Some(MakeIx(proof, tx.(messages := Blanked(tx.messages)))))
            == Ok(PoolCall(tx, CallSigners(a.Metas()[1..], ORDER_AUTHORITY)))
            <==> tx.messages == [Message(tx.messages[0].viewTag, MarkerBytes(tx.outputs[1].utxoHash, a.payer))]
  {
    MetasForwardAuthority(a);
    FillBlanked(a.payer, tx);
  }

  lemma NonZeroTakesFirstTwo(hashes: seq<Fe>, first: Fe, second: Fe)
    requires NonZero(hashes) == [first, second] && first != second && |hashes| >= 2
    ensures hashes[1] == second <==> hashes[0] != ZERO && hashes[1] != ZERO
    ensures hashes[1] == second ==> hashes[0] == first
  {
    assert hashes == [hashes[0]] + hashes[1..] && hashes[1..] == [hashes[1]] + hashes[2..];
    NonZeroConcat([hashes[0]], hashes[1..]);
    NonZeroConcat([hashes[1]], hashes[2..]);
    NonZeroSingle(hashes[0]);
    NonZeroSingle(hashes[1]);
    NonZeroMembers(hashes, second);
    assert second in NonZero(hashes);
    if hashes[0] == ZERO && hashes[1] != ZERO {
      assert NonZero(hashes)[0] == hashes[1];
    }
    if hashes[0] != ZERO && hashes[1] != ZERO {
      assert NonZero(hashes)[1] == hashes[1];
    }
  }

  /** After an accepted make the one message marks the order note and the payer, unless padding
      stands among the first two outputs: the marker is read off position 1 of the raw outputs. */
  lemma MarkerNamesOrder(s: State, accounts: seq<Account>, ix: MakeIx, call: PoolCall)
    requires MakeCall(accounts, Some(ix)) == Ok(call) && Accepts(s, call.transact, call.signers)
    ensures |call.transact.messages| == 1 && |call.transact.outputs| >= 2
    ensures |accounts| > 0 && accounts[0].isSigner
    ensures call.transact.messages[0].data == MarkerBytes(Enc(Commitment(ix.proof.orderUtxo)), accounts[0].address)
            <==> call.transact.proof.outputs[0].Create? && call.transact.proof.outputs[1].Create?
  {
    MakeBinds(s, accounts, ix, call);
    MarkerOfBound(call.transact, ix.proof, accounts[0].address);
  }

  lemma MarkerOfBound(tx: Transact, w: MakeCircuit.Witness, payer: Address)
    requires MakeBound(w, tx) && OutputsMatch(tx) && |tx.outputs| >= 2 && |tx.messages| == 1
    requires tx.messages[0].data == MarkerBytes(tx.outputs[1].utxoHash, payer)
    ensures tx.messages[0].data == MarkerBytes(Enc(Commitment(w.orderUtxo)), payer)
            <==> tx.proof.outputs[0].Create? && tx.proof.outputs[1].Create?
  {
    var hashes := OutputHashes(tx.proof.outputs);
    NonZeroTakesFirstTwo(hashes, Commitment(w.change), Commitment(w.orderUtxo));
    assert MarkerBytes(tx.outputs[1].utxoHash, payer)[..32] == tx.outputs[1].utxoHash;
    assert MarkerBytes(Enc(Commitment(w.orderUtxo)), payer)[..32] == Enc(Commitment(w.orderUtxo));
    if tx.outputs[1].utxoHash == Enc(Commitment(w.orderUtxo)) {
      EncInjective(hashes[1], Commitment(w.orderUtxo));
    }
  }
}
