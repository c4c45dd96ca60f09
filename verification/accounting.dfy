/** What is locked in live orders, and in live escrows, per asset, over whole runs. */
module Accounting {
  import opened Ideal
  import opened Notes
  import opened Pool
  import opened Runtime
  import opened SwapProgram
  import opened EscrowProgram
  import opened Runs
  import opened Binding
  import opened Order
  import opened Settlement
  import EscrowSdk
  import EscrowSafety
  import OrderTermsCircuit
  import MakeCircuit
  import TakeCircuit
  import CancelCircuit
  import EscrowCircuits

  /* The value of asset `a` in a finite set of notes. */

  function Value(u: Utxo, a: Fe): nat {
    if u.asset == a then Amount(u.amount) else 0
  }

  ghost function Sum(notes: set<Utxo>, a: Fe): nat {
    if notes == {} then 0
    else
      var u :| u in notes;
      Value(u, a) + Sum(notes - {u}, a)
  }

  lemma {:induction false} SumWithout(notes: set<Utxo>, u: Utxo, a: Fe)
    requires u in notes
    ensures Sum(notes, a) == Value(u, a) + Sum(notes - {u}, a)
  {
    var first :| first in notes && Sum(notes, a) == Value(first, a) + Sum(notes - {first}, a);
    if first != u {
      SumWithout(notes - {first}, u, a);
      SumWithout(notes - {u}, first, a);
      assert notes - {first} - {u} == notes - {u} - {first};
    }
  }

  lemma {:induction false} SumOfDisjoint(x: set<Utxo>, y: set<Utxo>, a: Fe)
    requires x !! y
    ensures Sum(x + y, a) == Sum(x, a) + Sum(y, a)
    decreases y
  {
    if y == {} {
      assert x + y == x;
    } else {
      var u :| u in y;
      SumOfDisjoint(x, y - {u}, a);
      SumWithout(y, u, a);
      SumWithout(x + y, u, a);
      assert x + y - {u} == x + (y - {u});
    }
  }

  /** A sum counts every note's amount under the note's own asset. */
  lemma SumCounts(notes: set<Utxo>, u: Utxo, a: Fe)
    ensures Sum({u}, a) == if u.asset == a then Amount(u.amount) else 0
    ensures u in notes ==> Sum(notes, u.asset) >= Amount(u.amount)
  {
    SumWithout({u}, u, a);
    assert {u} - {u} == {};
    if u in notes {
      SumWithout(notes, u, u.asset);
    }
  }

  /* The two kinds of locked note. */

  datatype Kind = Orders | Escrows
  {
    function Authority(): Address {
      if Orders? then ORDER_AUTHORITY else ESCROW_AUTHORITY
    }

    ghost predicate Is(u: Utxo) {
      if Orders? then IsOrderNote(u) else EscrowSafety.IsEscrowNote(u)
    }

    /** The step that locks notes of this kind. */
    predicate IsLock(step: Step) {
      if Orders? then step.Make? else step.Escrow?
    }

    /** The note a lock step proves. */
    function Proved(step: Step): Option<Utxo> {
      if !IsLock(step) then None
      else if Orders? then Some(step.make.proof.orderUtxo)
      else Some(step.escrow.proof.escrowUtxo)
    }

    /** The note a releasing proof takes as the one it releases. */
    function Released(step: Step): Option<Utxo> {
      match step
      case Take(_, ix) => if Orders? then Some(ix.proof.core.orderUtxo) else None
      case VerifiableTake(_, ix) => if Orders? then Some(ix.proof.core.orderUtxo) else None
      case Cancel(_, ix) => if Orders? then Some(ix.proof.orderUtxo) else None
      case Withdraw(_, ix) => if Escrows? then Some(ix.proof.escrowUtxo) else None
      case _ => None
    }

    /** No lock step spends a note of the kind it locks. */
    ghost predicate Guards(step: Step) {
      if Orders? then SpendsNoOrder(step) else EscrowSafety.SpendsNoEscrow(step)
    }
  }

  lemma KindOwner(kind: Kind, u: Utxo)
    requires kind.Is(u)
    ensures IsAuthority(kind.Authority()) && u.owner == AuthorityOwner(kind.Authority())
  {
  }

  /** The data hashes of the two kinds differ in arity, and from a plain note's. */
  lemma KindData(kind: Kind, u: Utxo)
    requires kind.Is(u)
    ensures u.dataHash.Poseidon? && |u.dataHash.args| == if kind.Orders? then 6 else 2
  {
  }

  /* Live notes. */

  /** The unspent notes of one kind in the pool. */
  ghost function LiveNotes(kind: Kind, s: State): set<Utxo> {
    set h | h in s.leaves && h.Commitment? && kind.Is(h.utxo) && AuthorityNullifier(h.utxo) !in s.spent :: h.utxo
  }

  lemma InLiveNotes(kind: Kind, s: State, u: Utxo)
    ensures u in LiveNotes(kind, s) <==> kind.Is(u) && Live(s, u)
  {
    if kind.Is(u) && Live(s, u) {
      assert Commitment(u).utxo == u;
    }
  }

  /** The notes of one kind that a step appends. */
  ghost function Entered(kind: Kind, s: State, s': State): set<Utxo> {
    set h | h in s'.leaves - s.leaves && h.Commitment? && kind.Is(h.utxo) :: h.utxo
  }

  lemma InEntered(kind: Kind, s: State, s': State, u: Utxo)
    ensures u in Entered(kind, s, s') <==> kind.Is(u) && Commitment(u) in s'.leaves && Commitment(u) !in s.leaves
  {
    if kind.Is(u) && Commitment(u) in s'.leaves - s.leaves {
      assert Commitment(u).utxo == u;
    }
  }

  /** The note a releasing step releases. */
  ghost function Left(kind: Kind, step: Step): set<Utxo> {
    if kind.Released(step).Some? && kind.Is(kind.Released(step).value) then {kind.Released(step).value} else {}
  }

  /** The notes a lock step spends although they are locked. */
  ghost function Respent(kind: Kind, step: Step): set<Utxo> {
    if kind.IsLock(step) then
      var inputs := Carried(step).proof.inputs;
      set i | 0 <= i < |inputs| && inputs[i].Spend? && kind.Is(inputs[i].utxo) :: inputs[i].utxo
    else {}
  }

  /** The guard says that nothing is respent. */
  lemma RespentIff(kind: Kind, step: Step)
    ensures kind.Guards(step) <==> Respent(kind, step) == {}
  {
    if kind.IsLock(step) && !kind.Guards(step) {
      var inputs := Carried(step).proof.inputs;
      var i :| 0 <= i < |inputs| && inputs[i].Spend? && kind.Is(inputs[i].utxo);
      assert inputs[i].utxo in Respent(kind, step);
    }
  }

  lemma InRespent(kind: Kind, step: Step, u: Utxo)
    requires kind.IsLock(step) && kind.Is(u)
    ensures u in Respent(kind, step) <==> Consumes(Carried(step), u)
  {
  }

  /** A published nullifier of the kind belongs to an appended note. */
  ghost predicate SpentIsAppended(kind: Kind, s: State) {
    forall u: Utxo :: kind.Is(u) && AuthorityNullifier(u) in s.spent ==> Commitment(u) in s.leaves
  }

  lemma CoreIsProved(core: TakeCircuit.Core, privateTxHash: Fe, tx: Transact, o: OrderUtxo, t: u16)
    requires CoreBound(core, privateTxHash, tx)
    ensures Consumes(tx, o.Note(t)) <==> core.orderUtxo == o.Note(t)
  {
    CorePays(core, privateTxHash, tx, o, t);
    ConsumesIsRealInput(tx, o.Note(t));
  }

  lemma TakenIsProved(s: State, accounts: seq<Account>, ix: TakeIx, call: PoolCall, o: OrderUtxo, t: u16)
    requires TakeCall(s.now, accounts, Some(ix)) == Ok(call) && Accepts(s, call.transact, call.signers)
    ensures Consumes(call.transact, o.Note(t)) <==> ix.proof.core.orderUtxo == o.Note(t)
  {
    TakeBinds(s, accounts, ix, call);
    CoreIsProved(ix.proof.core, ix.proof.privateTxHash, ix.transact, o, t);
  }

  lemma VerifiablyTakenIsProved(s: State, accounts: seq<Account>, ix: VerifiableTakeIx, call: PoolCall, o: OrderUtxo,
                                t: u16)
    requires VerifiableTakeCall(s.now, accounts, Some(ix)) == Ok(call) && Accepts(s, call.transact, call.signers)
    ensures Consumes(call.transact, o.Note(t)) <==> ix.proof.core.orderUtxo == o.Note(t)
  {
    VerifiableTakeBinds(s, accounts, ix, call);
    CoreIsProved(ix.proof.core, ix.proof.privateTxHash, ix.transact, o, t);
  }

  lemma CancelledIsProved(s: State, accounts: seq<Account>, ix: CancelIx, call: PoolCall, u: Utxo)
    requires CancelCall(s.now, accounts, Some(ix)) == Ok(call) && Accepts(s, call.transact, call.signers)
    ensures Consumes(call.transact, u) <==> ix.proof.orderUtxo == u
  {
    CancelBinds(s, accounts, ix, call);
    ConsumesIsRealInput(ix.transact, u);
  }

  lemma SettledIsReleased(s: State, step: Step, s': State, o: OrderUtxo, t: u16)
    requires Next(s, step, s') && !step.Make?
    ensures Spends(s.now, step, o.Note(t)) <==> Orders.Released(step) == Some(o.Note(t))
  {
    if step.Take? || step.VerifiableTake? || step.Cancel? {
      var call := AcceptedStep(s, step, s');
      match step
      case Take(accounts, ix) => TakenIsProved(s, accounts, ix, call, o, t);
      case VerifiableTake(accounts, ix) => VerifiablyTakenIsProved(s, accounts, ix, call, o, t);
      case Cancel(accounts, ix) => CancelledIsProved(s, accounts, ix, call, o.Note(t));
    } else {
      StepOnNote(s, step, s', o.Note(t), ORDER_AUTHORITY);
      AuthoritiesDiffer();
    }
  }

  lemma WithdrawnIsProved(s: State, accounts: seq<Account>, ix: WithdrawIx, call: PoolCall, u: Utxo)
    requires WithdrawCall(s.now, accounts, Some(ix)) == Ok(call) && Accepts(s, call.transact, call.signers)
    ensures Consumes(call.transact, u) <==> u == ix.proof.escrowUtxo
  {
    WithdrawBinds(s, accounts, ix, call);
    ConsumesIsRealInput(ix.transact, u);
  }

  lemma ReturnedIsReleased(s: State, step: Step, s': State, e: EscrowSdk.EscrowUtxo, t: u16)
    requires Next(s, step, s') && !step.Escrow?
    ensures Spends(s.now, step, e.Note(t)) <==> Escrows.Released(step) == Some(e.Note(t))
  {
    StepOnNote(s, step, s', e.Note(t), ESCROW_AUTHORITY);
    AuthoritiesDiffer();
    if step.Withdraw? {
      var call := AcceptedStep(s, step, s');
      WithdrawnIsProved(s, step.accounts, step.withdraw, call, e.Note(t));
    }
  }

  lemma SpentIsRespent(kind: Kind, s: State, step: Step, s': State, u: Utxo)
    requires Next(s, step, s') && kind.Is(u) && kind.IsLock(step)
    ensures Spends(s.now, step, u) <==> u in Respent(kind, step)
    ensures Left(kind, step) == {}
  {
    InRespent(kind, step, u);
    CarriedIsForwarded(s.now, step, u);
  }

  lemma ReleasedIsLeft(kind: Kind, step: Step, u: Utxo)
    requires kind.Is(u) && !kind.IsLock(step)
    ensures kind.Released(step) == Some(u) <==> u in Left(kind, step)
    ensures Respent(kind, step) == {}
  {
  }

  /** The notes of one kind that an accepted step spends are the one its proof releases and the ones
      it respends. */
  lemma SpentIsGone(kind: Kind, s: State, step: Step, s': State, u: Utxo)
    requires Next(s, step, s') && kind.Is(u)
    ensures Spends(s.now, step, u) <==> u in Left(kind, step) + Respent(kind, step)
  {
    if kind.IsLock(step) {
      SpentIsRespent(kind, s, step, s', u);
    } else if kind.Orders? {
      var o: OrderUtxo, t: u16 :| u == o.Note(t);
      SettledIsReleased(s, step, s', o, t);
      ReleasedIsLeft(kind, step, u);
    } else {
      var e: EscrowSdk.EscrowUtxo, t: u16 :| u == e.Note(t);
      ReturnedIsReleased(s, step, s', e, t);
      ReleasedIsLeft(kind, step, u);
    }
  }

  /** A nullifier of the kind is published only for an appended note, whatever the step. */
  lemma SpentStaysAppended(kind: Kind, s: State, step: Step, s': State)
    requires Next(s, step, s') && SpentIsAppended(kind, s)
    ensures SpentIsAppended(kind, s')
  {
    forall u: Utxo | kind.Is(u) && AuthorityNullifier(u) in s'.spent
      ensures Commitment(u) in s'.leaves
    {
      KindOwner(kind, u);
      StepOnNote(s, step, s', u, kind.Authority());
    }
  }

  /** One step adds the notes of the kind that it appends, and removes the one it releases and those it
      respends. All three changes are real: what is appended was not live, and what is gone was. */
  lemma StepOnLiveNotes(kind: Kind, s: State, step: Step, s': State)
    requires Next(s, step, s') && SpentIsAppended(kind, s)
    ensures LiveNotes(kind, s') == LiveNotes(kind, s) - (Left(kind, step) + Respent(kind, step)) + Entered(kind, s, s')
    ensures Left(kind, step) + Respent(kind, step) <= LiveNotes(kind, s)
    ensures LiveNotes(kind, s) !! Entered(kind, s, s') && Left(kind, step) !! Respent(kind, step)
  {
    var gone := Left(kind, step) + Respent(kind, step);
    forall u: Utxo | kind.Is(u)
      ensures u in gone ==> u in LiveNotes(kind, s)
      ensures u in LiveNotes(kind, s') <==> u in LiveNotes(kind, s) - gone + Entered(kind, s, s')
      ensures u in LiveNotes(kind, s) ==> u !in Entered(kind, s, s')
    {
      KindOwner(kind, u);
      StepOnNote(s, step, s', u, kind.Authority());
      SpentIsGone(kind, s, step, s', u);
      InLiveNotes(kind, s, u);
      InLiveNotes(kind, s', u);
      InEntered(kind, s, s', u);
    }
  }

  /* Where locked notes come from. */

  /** No deposit and no interface transfer appends a note of the kind. */
  ghost predicate OnlyLocksAppend(kind: Kind, step: Step) {
    match step
    case Deposit(note) => !kind.Is(note)
    case Transfer(tx, _) =>
      forall i :: 0 <= i < |tx.proof.outputs| && tx.proof.outputs[i].Create? ==> !kind.Is(tx.proof.outputs[i].utxo)
    case _ => true
  }

  /** The note a lock step locks, unless that very note was appended before. */
  ghost function Made(kind: Kind, s: State, step: Step): set<Utxo> {
    set u | u in Proven(kind, step) && Commitment(u) !in s.leaves
  }

  /** The note a lock step proves, counted each time. */
  ghost function Proven(kind: Kind, step: Step): set<Utxo> {
    if kind.Proved(step).Some? && kind.Is(kind.Proved(step).value) then {kind.Proved(step).value} else {}
  }

  /** Of these, the ones appended before. */
  ghost function Repeated(kind: Kind, s: State, step: Step): set<Utxo> {
    set u | u in Proven(kind, step) && Commitment(u) in s.leaves
  }

  /** The commitments a program step appends. */
  function Appended(now: i64, step: Step): seq<Fe>
    requires !step.Tick? && !step.Deposit? && StepCall(now, step).Ok?
  {
    RealOutputs(StepCall(now, step).value.transact)
  }

  lemma TransferAppendsNone(kind: Kind, tx: Transact, u: Utxo)
    requires forall i ::
               0 <= i < |tx.proof.outputs| && tx.proof.outputs[i].Create? ==> !kind.Is(tx.proof.outputs[i].utxo)
    requires kind.Is(u)
    ensures Commitment(u) !in RealOutputs(tx)
  {
    var hashes := OutputHashes(tx.proof.outputs);
    NonZeroMembers(hashes, Commitment(u));
  }

  /** A note without data is of neither kind. */
  lemma PlainIsNone(kind: Kind, u: Utxo, plain: Utxo)
    requires kind.Is(u) && plain.dataHash == ZERO
    ensures u != plain
  {
    KindData(kind, u);
  }

  lemma CoreAppendsNone(kind: Kind, core: TakeCircuit.Core, privateTxHash: Fe, tx: Transact, u: Utxo)
    requires CoreBound(core, privateTxHash, tx) && kind.Is(u)
    ensures Commitment(u) !in RealOutputs(tx)
  {
    PlainIsNone(kind, u, core.sourceOutput);
    PlainIsNone(kind, u, core.destinationOutput);
  }

  lemma TakesAppendNone(kind: Kind, s: State, step: Step, s': State, u: Utxo)
    requires Next(s, step, s') && (step.Take? || step.VerifiableTake?) && kind.Is(u)
    ensures Commitment(u) !in Appended(s.now, step)
  {
    var call := StepCall(s.now, step).value;
    match step
    case Take(accounts, ix) =>
      TakeBinds(s, accounts, ix, call);
      CoreAppendsNone(kind, ix.proof.core, ix.proof.privateTxHash, call.transact, u);
    case VerifiableTake(accounts, ix) =>
      VerifiableTakeBinds(s, accounts, ix, call);
      CoreAppendsNone(kind, ix.proof.core, ix.proof.privateTxHash, call.transact, u);
  }

  lemma CancelBoundAppendsNone(kind: Kind, now: i64, accounts: seq<Account>, expiry: u64, w: CancelCircuit.Witness,
                               tx: Transact, u: Utxo)
    requires CancelBound(now, accounts, expiry, w, tx) && kind.Is(u)
    ensures Commitment(u) !in RealOutputs(tx)
  {
    PlainIsNone(kind, u, w.sourceOutput);
  }

  lemma WithdrawBoundAppendsNone(kind: Kind, now: i64, accounts: seq<Account>, ix: WithdrawIx, u: Utxo)
    requires WithdrawBound(now, accounts, ix.unlockTimestamp, ix.proof, ix.transact) && kind.Is(u)
    ensures Commitment(u) !in RealOutputs(ix.transact)
  {
    PlainIsNone(kind, u, ix.proof.sourceOutput);
  }

  lemma CancelAppendsNone(kind: Kind, s: State, step: Step, s': State, u: Utxo)
    requires Next(s, step, s') && step.Cancel? && kind.Is(u)
    ensures Commitment(u) !in Appended(s.now, step)
  {
    CancelBinds(s, step.accounts, step.cancel, StepCall(s.now, step).value);
    CancelBoundAppendsNone(kind, s.now, step.accounts, step.cancel.orderExpiry, step.cancel.proof,
                           step.cancel.transact, u);
  }

  lemma WithdrawAppendsNone(kind: Kind, s: State, step: Step, s': State, u: Utxo)
    requires Next(s, step, s') && step.Withdraw? && kind.Is(u)
    ensures Commitment(u) !in Appended(s.now, step)
  {
    WithdrawBinds(s, step.accounts, step.withdraw, StepCall(s.now, step).value);
    WithdrawBoundAppendsNone(kind, s.now, step.accounts, step.withdraw, u);
  }

  /** Of the two notes a lock step appends only the second can be a locked one, and of its own kind. */
  lemma MakeBoundAppends(kind: Kind, w: MakeCircuit.Witness, tx: Transact, u: Utxo)
    requires MakeBound(w, tx) && kind.Is(u)
    ensures Commitment(u) in RealOutputs(tx) <==> kind.Orders? && u == w.orderUtxo
  {
    KindData(kind, u);
    PlainIsNone(kind, u, w.change);
    assert w.orderUtxo.dataHash == w.order.DataHash();
    assert RealOutputs(tx)[1] == Commitment(w.orderUtxo);
  }

  lemma EscrowBoundAppends(kind: Kind, w: EscrowCircuits.EscrowWitness, tx: Transact, u: Utxo)
    requires EscrowBound(w, tx) && kind.Is(u)
    ensures Commitment(u) in RealOutputs(tx) <==> kind.Escrows? && u == w.escrowUtxo
  {
    KindData(kind, u);
    PlainIsNone(kind, u, w.change);
    assert w.escrowUtxo.dataHash == w.terms.DataHash();
    assert RealOutputs(tx)[1] == Commitment(w.escrowUtxo);
  }

  lemma LocksAppend(kind: Kind, s: State, step: Step, s': State, u: Utxo)
    requires Next(s, step, s') && (step.Make? || step.Escrow?) && kind.Is(u)
    ensures Commitment(u) in Appended(s.now, step) <==> kind.Proved(step) == Some(u)
  {
    var call := StepCall(s.now, step).value;
    match step
    case Make(accounts, ix) =>
      MakeBinds(s, accounts, ix, call);
      MakeBoundAppends(kind, ix.proof, call.transact, u);
    case Escrow(accounts, ix) =>
      EscrowBinds(s, accounts, ix, call);
      EscrowBoundAppends(kind, ix.proof, call.transact, u);
  }

  /** Of all notes a program step appends only the one a lock step proves can be of its kind. */
  lemma AppendedNote(kind: Kind, s: State, step: Step, s': State, u: Utxo)
    requires Next(s, step, s') && OnlyLocksAppend(kind, step) && !step.Tick? && !step.Deposit? && kind.Is(u)
    ensures Commitment(u) in Appended(s.now, step) <==> kind.Proved(step) == Some(u)
  {
    if step.Transfer? {
      TransferAppendsNone(kind, step.transact, u);
    } else if step.Make? || step.Escrow? {
      LocksAppend(kind, s, step, s', u);
    } else if step.Take? || step.VerifiableTake? {
      TakesAppendNone(kind, s, step, s', u);
    } else if step.Cancel? {
      CancelAppendsNone(kind, s, step, s', u);
    } else {
      WithdrawAppendsNone(kind, s, step, s', u);
    }
  }

  lemma NewIffMade(kind: Kind, s: State, step: Step, s': State, u: Utxo)
    requires Next(s, step, s') && OnlyLocksAppend(kind, step) && kind.Is(u)
    ensures Commitment(u) in s'.leaves && Commitment(u) !in s.leaves <==> u in Made(kind, s, step)
  {
    if !step.Tick? && !step.Deposit? {
      AppendedNote(kind, s, step, s', u);
    }
  }

  lemma EnteredIsMade(kind: Kind, s: State, step: Step, s': State)
    requires Next(s, step, s') && OnlyLocksAppend(kind, step)
    ensures Entered(kind, s, s') == Made(kind, s, step)
  {
    forall u: Utxo | kind.Is(u)
      ensures u in Entered(kind, s, s') <==> u in Made(kind, s, step)
    {
      InEntered(kind, s, s', u);
      NewIffMade(kind, s, step, s', u);
    }
  }

  /** A guarded lock step only adds its note, and the note it adds is live. */
  lemma LockAddsItsNote(kind: Kind, s: State, step: Step, s': State)
    requires Next(s, step, s') && kind.IsLock(step) && kind.Guards(step) && SpentIsAppended(kind, s)
    ensures LiveNotes(kind, s') == LiveNotes(kind, s) + Made(kind, s, step)
  {
    StepOnLiveNotes(kind, s, step, s');
    EnteredIsMade(kind, s, step, s');
    RespentIff(kind, step);
  }

  lemma RepeatedIsNotMade(kind: Kind, s: State, step: Step)
    requires kind.IsLock(step) && Commitment(kind.Proved(step).value) in s.leaves
    ensures Made(kind, s, step) == {}
  {
  }

  /** Locking a note that was appended before locks nothing: the source is spent and the live notes stay
      as they were, since both leaves have one nullifier. */
  lemma RepeatedLockLocksNothing(kind: Kind, s: State, step: Step, s': State)
    requires Next(s, step, s') && kind.IsLock(step) && kind.Guards(step) && SpentIsAppended(kind, s)
    requires Commitment(kind.Proved(step).value) in s.leaves
    ensures LiveNotes(kind, s') == LiveNotes(kind, s)
    ensures Published(Carried(step).proof.inputs) <= s'.spent
  {
    LockAddsItsNote(kind, s, step, s');
    RepeatedIsNotMade(kind, s, step);
    CarriedIsForwarded(s.now, step, kind.Proved(step).value);
  }

  lemma ReleaseOnlyReleases(kind: Kind, s: State, step: Step, u: Utxo)
    requires kind.Is(u) && kind.Released(step) == Some(u)
    ensures Left(kind, step) == {u} && Respent(kind, step) == {} && Made(kind, s, step) == {}
    ensures OnlyLocksAppend(kind, step)
  {
  }

  lemma OneNoteLeaves(before: set<Utxo>, u: Utxo, after: set<Utxo>, left: set<Utxo>, respent: set<Utxo>,
                      entered: set<Utxo>)
    requires after == before - (left + respent) + entered && left + respent <= before
    requires left == {u} && respent == {} && entered == {}
    ensures after == before - {u} && u in before && |after| == |before| - 1
  {
    assert left + respent == {u};
  }

  /** Releasing removes exactly the released note from the live ones and adds none: every accepted
      release leaves one live note fewer. */
  lemma ReleaseRemovesItsNote(kind: Kind, s: State, step: Step, s': State, u: Utxo)
    requires Next(s, step, s') && SpentIsAppended(kind, s) && kind.Is(u) && kind.Released(step) == Some(u)
    ensures LiveNotes(kind, s') == LiveNotes(kind, s) - {u} && u in LiveNotes(kind, s)
    ensures |LiveNotes(kind, s')| == |LiveNotes(kind, s)| - 1
  {
    ReleaseOnlyReleases(kind, s, step, u);
    StepOnLiveNotes(kind, s, step, s');
    EnteredIsMade(kind, s, step, s');
    OneNoteLeaves(LiveNotes(kind, s), u, LiveNotes(kind, s'), Left(kind, step), Respent(kind, step),
                  Entered(kind, s, s'));
  }

  /** So does every settlement of an order. */
  lemma SettlementRemovesItsOrder(s: State, step: Step, s': State, o: OrderUtxo, t: u16)
    requires Next(s, step, s') && SpentIsAppended(Orders, s) && Settles(s.now, step, o, t)
    ensures LiveNotes(Orders, s') == LiveNotes(Orders, s) - {o.Note(t)} && o.Note(t) in LiveNotes(Orders, s)
    ensures |LiveNotes(Orders, s')| == |LiveNotes(Orders, s)| - 1
  {
    SettlesReleased(s, step, s', o, t);
    ReleaseRemovesItsNote(Orders, s, step, s', o.Note(t));
  }

  lemma SettlesReleased(s: State, step: Step, s': State, o: OrderUtxo, t: u16)
    requires Next(s, step, s') && Settles(s.now, step, o, t)
    ensures Orders.Released(step) == Some(o.Note(t)) && Orders.Is(o.Note(t))
  {
    SpentIffSettled(s, step, s', o, t);
    SettledIsReleased(s, step, s', o, t);
  }

  /* Runs. */

  ghost function TotalEntered(kind: Kind, states: seq<State>, n: nat, a: Fe): nat
    requires n < |states|
  {
    if n == 0 then 0 else TotalEntered(kind, states, n - 1, a) + Sum(Entered(kind, states[n - 1], states[n]), a)
  }

  /** The value newly locked by the first `n` steps, proved by them, and proved again. */
  ghost function TotalMade(kind: Kind, states: seq<State>, steps: seq<Step>, n: nat, a: Fe): nat
    requires |states| == |steps| + 1 && n <= |steps|
  {
    if n == 0 then 0 else TotalMade(kind, states, steps, n - 1, a) + Sum(Made(kind, states[n - 1], steps[n - 1]), a)
  }

  ghost function TotalProved(kind: Kind, steps: seq<Step>, n: nat, a: Fe): nat
    requires n <= |steps|
  {
    if n == 0 then 0 else TotalProved(kind, steps, n - 1, a) + Sum(Proven(kind, steps[n - 1]), a)
  }

  ghost function TotalRepeated(kind: Kind, states: seq<State>, steps: seq<Step>, n: nat, a: Fe): nat
    requires |states| == |steps| + 1 && n <= |steps|
  {
    if n == 0 then 0
    else TotalRepeated(kind, states, steps, n - 1, a) + Sum(Repeated(kind, states[n - 1], steps[n - 1]), a)
  }

  /** The value released, and respent, by the first `n` steps. */
  ghost function TotalLeft(kind: Kind, steps: seq<Step>, n: nat, a: Fe): nat
    requires n <= |steps|
  {
    if n == 0 then 0 else TotalLeft(kind, steps, n - 1, a) + Sum(Left(kind, steps[n - 1]), a)
  }

  ghost function TotalRespent(kind: Kind, steps: seq<Step>, n: nat, a: Fe): nat
    requires n <= |steps|
  {
    if n == 0 then 0 else TotalRespent(kind, steps, n - 1, a) + Sum(Respent(kind, steps[n - 1]), a)
  }

  /** The source value of orders taken, or cancelled, by the first `n` steps. */
  ghost function TotalTaken(steps: seq<Step>, n: nat, a: Fe): nat
    requires n <= |steps|
  {
    if n == 0 then 0
    else TotalTaken(steps, n - 1, a) + if steps[n - 1].Cancel? then 0 else Sum(Left(Orders, steps[n - 1]), a)
  }

  ghost function TotalCancelled(steps: seq<Step>, n: nat, a: Fe): nat
    requires n <= |steps|
  {
    if n == 0 then 0
    else TotalCancelled(steps, n - 1, a) + if steps[n - 1].Cancel? then Sum(Left(Orders, steps[n - 1]), a) else 0
  }

  lemma {:induction false} LeftIsTakenOrCancelled(steps: seq<Step>, n: nat, a: Fe)
    requires n <= |steps|
    ensures TotalLeft(Orders, steps, n, a) == TotalTaken(steps, n, a) + TotalCancelled(steps, n, a)
  {
    if n > 0 {
      LeftIsTakenOrCancelled(steps, n - 1, a);
    }
  }

  /** What is newly locked is what lock steps prove less what they prove again. */
  lemma {:induction false} MadeIsProvedMinusRepeated(kind: Kind, states: seq<State>, steps: seq<Step>, n: nat, a: Fe)
    requires |states| == |steps| + 1 && n <= |steps|
    ensures TotalMade(kind, states, steps, n, a)
            == TotalProved(kind, steps, n, a) - TotalRepeated(kind, states, steps, n, a)
  {
    if n > 0 {
      var s, step := states[n - 1], steps[n - 1];
      MadeIsProvedMinusRepeated(kind, states, steps, n - 1, a);
      SumOfDisjoint(Made(kind, s, step), Repeated(kind, s, step), a);
      assert Made(kind, s, step) + Repeated(kind, s, step) == Proven(kind, step);
    }
  }

  lemma {:induction false} GuardedRespendsNothing(kind: Kind, steps: seq<Step>, n: nat, a: Fe)
    requires n <= |steps| && forall i :: 0 <= i < n ==> kind.Guards(steps[i])
    ensures TotalRespent(kind, steps, n, a) == 0
  {
    if n > 0 {
      GuardedRespendsNothing(kind, steps, n - 1, a);
      RespentIff(kind, steps[n - 1]);
    }
  }

  lemma SumOfThree(x: set<Utxo>, y: set<Utxo>, z: set<Utxo>, a: Fe)
    requires x !! y + z && y !! z
    ensures Sum(x + (y + z), a) == Sum(x, a) + Sum(y, a) + Sum(z, a)
  {
    SumOfDisjoint(x, y + z, a);
    SumOfDisjoint(y, z, a);
  }

  lemma LiveSplits(kind: Kind, s: State, step: Step, s': State) returns (rest: set<Utxo>)
    requires Next(s, step, s') && SpentIsAppended(kind, s)
    ensures LiveNotes(kind, s) == rest + (Left(kind, step) + Respent(kind, step))
    ensures LiveNotes(kind, s') == rest + Entered(kind, s, s')
    ensures rest !! Left(kind, step) + Respent(kind, step) && Left(kind, step) !! Respent(kind, step)
    ensures rest !! Entered(kind, s, s')
  {
    StepOnLiveNotes(kind, s, step, s');
    rest := LiveNotes(kind, s) - (Left(kind, step) + Respent(kind, step));
  }

  lemma StepOnLocked(kind: Kind, s: State, step: Step, s': State, a: Fe)
    requires Next(s, step, s') && SpentIsAppended(kind, s)
    ensures Sum(LiveNotes(kind, s'), a) + Sum(Left(kind, step), a) + Sum(Respent(kind, step), a)
            == Sum(LiveNotes(kind, s), a) + Sum(Entered(kind, s, s'), a)
  {
    var rest := LiveSplits(kind, s, step, s');
    SumOfThree(rest, Left(kind, step), Respent(kind, step), a);
    SumOfDisjoint(rest, Entered(kind, s, s'), a);
  }

  lemma {:induction false} RunSpentIsAppended(kind: Kind, states: seq<State>, steps: seq<Step>, n: nat)
    requires Run(states, steps) && n <= |steps| && SpentIsAppended(kind, states[0])
    ensures SpentIsAppended(kind, states[n])
  {
    if n > 0 {
      RunSpentIsAppended(kind, states, steps, n - 1);
      SpentStaysAppended(kind, states[n - 1], steps[n - 1], states[n - 1 + 1]);
    }
  }

  /** In every run, without any guard: what is locked, released and respent together is what was there
      and what entered. */
  lemma {:induction false} LockedValue(kind: Kind, states: seq<State>, steps: seq<Step>, n: nat, a: Fe)
    requires Run(states, steps) && n <= |steps| && SpentIsAppended(kind, states[0])
    ensures Sum(LiveNotes(kind, states[n]), a) + TotalLeft(kind, steps, n, a) + TotalRespent(kind, steps, n, a)
            == Sum(LiveNotes(kind, states[0]), a) + TotalEntered(kind, states, n, a)
  {
    if n > 0 {
      LockedValue(kind, states, steps, n - 1, a);
      RunSpentIsAppended(kind, states, steps, n - 1);
      assert Next(states[n - 1], steps[n - 1], states[n - 1 + 1]);
      StepOnLocked(kind, states[n - 1], steps[n - 1], states[n], a);
    }
  }

  lemma {:induction false} TotalEnteredIsMade(kind: Kind, states: seq<State>, steps: seq<Step>, n: nat, a: Fe)
    requires Run(states, steps) && n <= |steps|
    requires forall i :: 0 <= i < n ==> OnlyLocksAppend(kind, steps[i])
    ensures TotalEntered(kind, states, n, a) == TotalMade(kind, states, steps, n, a)
  {
    if n > 0 {
      TotalEnteredIsMade(kind, states, steps, n - 1, a);
      EnteredIsMade(kind, states[n - 1], steps[n - 1], states[n]);
    }
  }

  /** From an empty pool, for either kind, every asset and every moment: what is locked is what was newly
      locked minus what was released minus what was respent. So the law without the last term holds
      exactly when nothing of that asset was respent. */
  lemma LockedIsMadeMinusGone(kind: Kind, states: seq<State>, steps: seq<Step>, n: nat, a: Fe)
    requires Run(states, steps) && n <= |steps| && states[0].leaves == {} && states[0].spent == {}
    requires forall i :: 0 <= i < n ==> OnlyLocksAppend(kind, steps[i])
    ensures Sum(LiveNotes(kind, states[n]), a)
            == TotalMade(kind, states, steps, n, a) - TotalLeft(kind, steps, n, a) - TotalRespent(kind, steps, n, a)
    ensures Sum(LiveNotes(kind, states[n]), a) == TotalMade(kind, states, steps, n, a) - TotalLeft(kind, steps, n, a)
            <==> TotalRespent(kind, steps, n, a) == 0
    ensures TotalMade(kind, states, steps, n, a)
            == TotalProved(kind, steps, n, a) - TotalRepeated(kind, states, steps, n, a)
  {
    LockedValue(kind, states, steps, n, a);
    TotalEnteredIsMade(kind, states, steps, n, a);
    MadeIsProvedMinusRepeated(kind, states, steps, n, a);
    assert LiveNotes(kind, states[0]) == {};
  }

  /** In a guarded run from an empty pool, the source value locked in live orders is what makes newly
      locked minus what takes took minus what cancels returned. */
  lemma LockedIsMadeMinusSettled(states: seq<State>, steps: seq<Step>, n: nat, a: Fe)
    requires Run(states, steps) && n <= |steps| && states[0].leaves == {} && states[0].spent == {}
    requires forall i :: 0 <= i < n ==> SpendsNoOrder(steps[i]) && OnlyLocksAppend(Orders, steps[i])
    ensures Sum(LiveNotes(Orders, states[n]), a)
            == TotalMade(Orders, states, steps, n, a) - TotalTaken(steps, n, a) - TotalCancelled(steps, n, a)
    ensures TotalMade(Orders, states, steps, n, a)
            == TotalProved(Orders, steps, n, a) - TotalRepeated(Orders, states, steps, n, a)
  {
    LockedIsMadeMinusGone(Orders, states, steps, n, a);
    GuardedRespendsNothing(Orders, steps, n, a);
    LeftIsTakenOrCancelled(steps, n, a);
  }

  /** In a guarded run from an empty pool, the value locked in live escrows is what escrow steps newly
      locked minus what withdraws returned. */
  lemma EscrowedIsMadeMinusReturned(states: seq<State>, steps: seq<Step>, n: nat, a: Fe)
    requires Run(states, steps) && n <= |steps| && states[0].leaves == {} && states[0].spent == {}
    requires forall i :: 0 <= i < n ==> EscrowSafety.SpendsNoEscrow(steps[i]) && OnlyLocksAppend(Escrows, steps[i])
    ensures Sum(LiveNotes(Escrows, states[n]), a)
            == TotalMade(Escrows, states, steps, n, a) - TotalLeft(Escrows, steps, n, a)
    ensures TotalMade(Escrows, states, steps, n, a)
            == TotalProved(Escrows, steps, n, a) - TotalRepeated(Escrows, states, steps, n, a)
  {
    LockedIsMadeMinusGone(Escrows, states, steps, n, a);
    GuardedRespendsNothing(Escrows, steps, n, a);
  }
}
