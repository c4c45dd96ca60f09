/** Which orders can still be settled, from any state on. */
module Settleable {
  import opened Ideal
  import opened Notes
  import opened Pool
  import opened Runtime
  import opened SwapProgram
  import opened Runs
  import opened Binding
  import opened Order
  import opened Settlement
  import opened ProofInputs
  import opened SwapSdk
  import opened CancelLiveness
  import opened TakeLiveness
  import Lifecycle
  import TakeCircuit

  /** What a caller can check: nonzero amounts, and a rail the terms can name; on the encrypted rail
      the committed taker must be an identity that can sign a swap call. */
  predicate AllowsTake(o: OrderUtxo) {
    && o.sourceAmount != 0 && o.terms.destinationAmount != 0
    && (o.terms.takeMode == 0
        || (o.terms.takeMode == 1 && o.terms.taker != ESCROW_AUTHORITY))
  }

  lemma DerivedTakenOrder(s: State, accounts: seq<Account>, ix: TakeIx, s': State, o: OrderUtxo, t: u16)
    requires Next(s, Take(accounts, ix), s') && Settles(s.now, Take(accounts, ix), o, t)
    ensures AllowsTake(o)
  {
    TakeBinds(s, accounts, ix, StepCall(s.now, Take(accounts, ix)).value);
    CoreAllowsTake(ix.proof.core, ix.proof.privateTxHash, ix.transact, o, t);
  }

  lemma CoreAllowsTake(core: TakeCircuit.Core, privateTxHash: Fe, tx: Transact, o: OrderUtxo, t: u16)
    requires CoreBound(core, privateTxHash, tx) && PaysTake(core, tx, o, t)
    ensures o.sourceAmount != 0 && o.terms.destinationAmount != 0
  {
    assert RealInputs(tx)[0] == Commitment(core.orderUtxo);
    CorePays(core, privateTxHash, tx, o, t);
    ConsumesIsRealInput(tx, o.Note(t));
    assert core.order == ToProofInput(o.terms).Witness();
  }

  lemma VerifiableTakenOrder(s: State, accounts: seq<Account>, ix: VerifiableTakeIx, s': State, o: OrderUtxo, t: u16)
    requires Next(s, VerifiableTake(accounts, ix), s') && Settles(s.now, VerifiableTake(accounts, ix), o, t)
    ensures AllowsTake(o)
  {
    VerifiableTakeBinds(s, accounts, ix, StepCall(s.now, VerifiableTake(accounts, ix)).value);
    CoreAllowsTake(ix.proof.core, ix.proof.privateTxHash, ix.transact, o, t);
    AuthoritiesDiffer();
  }

  /** Whatever settles an order at a time, the order allows: a cancel past expiry, a take before. */
  lemma SettledOrder(s: State, step: Step, s': State, o: OrderUtxo, t: u16)
    requires Next(s, step, s') && Settles(s.now, step, o, t)
    ensures if s.now > o.terms.expiry then AllowsCancel(o) else AllowsTake(o)
  {
    match step
    case Take(accounts, ix) => DerivedTakenOrder(s, accounts, ix, s', o, t);
    case VerifiableTake(accounts, ix) => VerifiableTakenOrder(s, accounts, ix, s', o, t);
    case Cancel(accounts, ix) => CancelledOrder(s, accounts, ix, s', o, t);
  }

  /* A take of any order that allows one. */

  // A key that is no authority's.
  const PLAIN_KEY: Address := Enc(ZERO)

  lemma PlainKeyIsPlain()
    ensures !IsAuthority(PLAIN_KEY)
  {
    DecEnc(ZERO);
    DecEnc(Num(1));
    DecEnc(Num(2));
  }

  lemma ForwardedPair(signer: Account, authority: Account)
    requires authority.address == ORDER_AUTHORITY && (signer.isSigner || signer.address == ORDER_AUTHORITY)
    ensures Forwarded([signer, authority], ORDER_AUTHORITY)
    ensures SolanaIdentity(signer.address) in CallSigners([signer, authority], ORDER_AUTHORITY)
  {
    var accounts := [signer, authority];
    assert accounts[1].address == ORDER_AUTHORITY;
    assert signer in accounts;
  }

  /** A payer, the taker and the authority: any identity but the other program's can sign. */
  lemma TakerAccounts(taker: Address) returns (accounts: seq<Account>)
    requires taker != ESCROW_AUTHORITY
    ensures TakeAccounts(accounts, SolanaIdentity(taker))
  {
    PlainKeyIsPlain();
    var signer, authority := Account(taker, taker != ORDER_AUTHORITY, false), Account(ORDER_AUTHORITY, false, false);
    accounts := [Account(PLAIN_KEY, true, true), signer, authority];
    ForwardedPair(signer, authority);
    assert accounts[1..] == [signer, authority];
  }

  /** Some blinding gives a note whose nullifier is unspent. */
  lemma {:induction false} FreshNote(spent: set<Fe>, note: Utxo, secret: Fe, from: nat) returns (blinding: Fe, k: nat)
    ensures k >= from && blinding == OutputBlinding(ZERO, ZERO, k)
    ensures Nullifier(Commitment(note.(blinding := blinding)), blinding, secret) !in spent
    decreases spent
  {
    blinding, k := OutputBlinding(ZERO, ZERO, from), from;
    var nullifier := Nullifier(Commitment(note.(blinding := blinding)), blinding, secret);
    if nullifier in spent {
      blinding, k := FreshNote(spent - {nullifier}, note, secret, from + 1);
    }
  }

  function TakerOf(o: OrderUtxo): Taker {
    var key := if o.terms.takeMode == 1 then o.terms.taker else PLAIN_KEY;
    Taker(ShieldedAddress(Ed25519(key), NullifierKey(ZERO), []), ZERO)
  }

  /** The parameters of a take by `TakerOf(o)`, with the blindings the derived rail demands. */
  function TakeParamsOf(o: OrderUtxo, t: u16, takerBlinding: Fe): TakeParams {
    var taker, nullifier := TakerOf(o).address, o.SpentBy(t);
    var seed := OutputBlindingSeed(nullifier, TakeBlindingSeed(o.blinding));
    TakeParams(o, o.DestinationOutput(taker, takerBlinding), o.SourceOutput(taker, OutputBlinding(nullifier, seed, 0)),
               o.DestinationOutput(o.terms.destination, OutputBlinding(nullifier, seed, 1)),
               PrivateTxBlinding(nullifier, TakeBlindingSeed(o.blinding)), t, 0)
  }

  lemma TakeParamsPass(o: OrderUtxo, t: u16, takerBlinding: Fe)
    ensures var p := TakeParamsOf(o, t, takerBlinding);
            && p.CheckOutputs(o.terms.takeMode) == Ok(TakerOf(o).address)
            && p.ToCore() == Ok(CheckedCore(p, TakerOf(o).address))
  {
    CoreOfCheckedOutputs(TakeParamsOf(o, t, takerBlinding), o.terms.takeMode);
  }

  lemma DerivedParamsPass(o: OrderUtxo, t: u16, takerBlinding: Fe)
    requires o.terms.takeMode == 0
    ensures TakeParamsOf(o, t, takerBlinding).ToTakeInputs().Ok?
  {
    var p := TakeParamsOf(o, t, takerBlinding);
    TakeParamsPass(o, t, takerBlinding);
    PublicInputOfEncodings(CoreTxHash(CheckedCore(p, TakerOf(o).address)), o.terms.expiry, o.SpentBy(t));
    assert TakeInputs(CheckedCore(p, TakerOf(o).address), o.terms.expiry, o.SpentBy(t)).Ok?;
  }

  lemma VerifiableParamsPass(o: OrderUtxo, t: u16, takerBlinding: Fe)
    requires o.terms.takeMode == 1
    ensures TakeParamsOf(o, t, takerBlinding).ToVerifiableTakeInputs().Ok?
  {
    var p := TakeParamsOf(o, t, takerBlinding);
    TakeParamsPass(o, t, takerBlinding);
    PublicInputOfEncodings(CoreTxHash(CheckedCore(p, TakerOf(o).address)), o.terms.expiry,
                           BytesHash(PublishedCiphertext(p)));
  }

  function TakerNote(o: OrderUtxo, t: u16, takerBlinding: Fe): Utxo {
    CheckedCore(TakeParamsOf(o, t, takerBlinding), TakerOf(o).address).takerIn
  }

  /** With the taker's note in the pool, the order is taken inside its window. */
  lemma TakeNow(s: State, o: OrderUtxo, t: u16, takerBlinding: Fe) returns (take: Step, s': State)
    requires Live(s, o.Note(t)) && AllowsTake(o) && CheckWithinWindow(s.now, o.terms.expiry)
    requires HoldsTakerNote(s, TakeParamsOf(o, t, takerBlinding), TakerOf(o))
    ensures Next(s, take, s') && Settles(s.now, take, o, t)
    ensures if o.terms.takeMode == 0 then take.Take? else take.VerifiableTake?
  {
    var p, taker := TakeParamsOf(o, t, takerBlinding), TakerOf(o);
    if o.terms.takeMode == 0 {
      PlainKeyIsPlain();
      var accounts := TakerAccounts(PLAIN_KEY);
      DerivedParamsPass(o, t, takerBlinding);
      var h, w := TakeLands(s, accounts, p, taker);
      var tx := TakeTransact(o.terms.expiry, w.core, taker, 0, None);
      take, s' := Take(accounts, TakeIx(w, tx)), Apply(s, tx);
    } else {
      var accounts := TakerAccounts(o.terms.taker);
      VerifiableParamsPass(o, t, takerBlinding);
      var h, w := VerifiableTakeLands(s, accounts, p, taker);
      var tx := TakeTransact(o.terms.expiry, w.core, taker, 0, Some(PublishedCiphertext(p)));
      take, s' := VerifiableTake(accounts, VerifiableTakeIx(w, tx)), Apply(s, tx);
    }
  }

  /* From a state on. */

  /** A run from `s` whose clock is not turned back. */
  ghost predicate Continues(s: State, states: seq<State>, steps: seq<Step>) {
    && Run(states, steps) && states[0] == s
    && forall i :: 0 <= i < |steps| ==> states[i].now <= states[i + 1].now
  }

  /** The `i`-th step of such a run settles the order. */
  ghost predicate SettledBy(s: State, states: seq<State>, steps: seq<Step>, i: nat, o: OrderUtxo, t: u16) {
    Continues(s, states, steps) && i < |steps| && Settles(states[i].now, steps[i], o, t)
  }

  ghost predicate CanBeSettled(s: State, o: OrderUtxo, t: u16) {
    exists states: seq<State>, steps: seq<Step>, i: nat :: SettledBy(s, states, steps, i, o, t)
  }

  lemma {:induction false} ClockGrows(s: State, states: seq<State>, steps: seq<Step>, i: nat)
    requires Continues(s, states, steps) && i <= |steps|
    ensures s.now <= states[i].now
  {
    if i > 0 {
      ClockGrows(s, states, steps, i - 1);
      assert states[i - 1].now <= states[i - 1 + 1].now;
    }
  }

  lemma SettledAt(s: State, states: seq<State>, steps: seq<Step>, i: nat, now: i64, step: Step, o: OrderUtxo, t: u16)
    requires Continues(s, states, steps) && i < |steps| && states[i].now == now && steps[i] == step
    requires Settles(now, step, o, t)
    ensures CanBeSettled(s, o, t)
  {
    assert SettledBy(s, states, steps, i, o, t);
  }

  lemma OneStep(s: State, step: Step, s': State)
    requires Next(s, step, s') && s.now <= s'.now
    ensures Continues(s, [s, s'], [step])
  {
  }

  lemma SettledNow(s: State, step: Step, s': State, o: OrderUtxo, t: u16)
    requires Next(s, step, s') && Settles(s.now, step, o, t) && s.now <= s'.now
    ensures CanBeSettled(s, o, t)
  {
    OneStep(s, step, s');
    SettledAt(s, [s, s'], [step], 0, s.now, step, o, t);
  }

  lemma SettledLater(s: State, step: Step, s': State, o: OrderUtxo, t: u16)
    requires Next(s, step, s') && s.now <= s'.now && CanBeSettled(s', o, t)
    ensures CanBeSettled(s, o, t)
  {
    var states: seq<State>, steps: seq<Step>, i: nat :| SettledBy(s', states, steps, i, o, t);
    Prepended(s, step, states, steps);
    SettledAt(s, [s] + states, [step] + steps, i + 1, states[i].now, steps[i], o, t);
  }

  lemma Prepended(s: State, step: Step, states: seq<State>, steps: seq<Step>)
    requires |states| > 0 && Next(s, step, states[0]) && s.now <= states[0].now && Continues(states[0], states, steps)
    ensures Continues(s, [s] + states, [step] + steps)
  {
    var longer, more := [s] + states, [step] + steps;
    forall i | 0 <= i < |more|
      ensures Next(longer[i], more[i], longer[i + 1]) && longer[i].now <= longer[i + 1].now
    {
      if i > 0 {
        assert Next(states[i - 1], steps[i - 1], states[i - 1 + 1]) && states[i - 1].now <= states[i - 1 + 1].now;
      }
    }
  }

  lemma SettlingKeepsTime(s: State, step: Step, s': State, o: OrderUtxo, t: u16)
    requires Next(s, step, s') && Settles(s.now, step, o, t)
    ensures s'.now == s.now
  {
  }

  lemma CancelContinues(s: State, o: OrderUtxo, t: u16)
    requires Live(s, o.Note(t)) && AllowsCancel(o)
    ensures CanBeSettled(s, o, t)
  {
    var to: i64 := if s.now > o.terms.expiry then s.now else o.terms.expiry + 1;
    var late := s.(now := to);
    var accounts, ix := Lifecycle.CancelAfter(late, o, t);
    SettlingKeepsTime(late, Cancel(accounts, ix), Apply(late, ix.transact), o, t);
    SettledNow(late, Cancel(accounts, ix), Apply(late, ix.transact), o, t);
    SettledLater(s, Tick(to), late, o, t);
  }

  /** Inside its window a live order that allows a take is settled on the rail its mode names, once a
      note of the taker's is deposited: mode 0 by a derived take, mode 1 by an encrypted one. */
  lemma TakenOnItsRail(s: State, o: OrderUtxo, t: u16) returns (note: Utxo, funded: State, take: Step, s': State)
    requires Live(s, o.Note(t)) && AllowsTake(o) && 0 <= s.now <= o.terms.expiry
    ensures funded == s.(leaves := s.leaves + {Commitment(note)})
    ensures Next(s, Deposit(note), funded) && Next(funded, take, s') && Settles(s.now, take, o, t)
    ensures if o.terms.takeMode == 0 then take.Take? else take.VerifiableTake?
  {
    var blinding, _ := FreshNote(s.spent, TakerNote(o, t, ZERO), ZERO, 0);
    note := TakerNote(o, t, blinding);
    funded := s.(leaves := s.leaves + {Commitment(note)});
    take, s' := TakeNow(funded, o, t, blinding);
  }

  lemma TakeContinues(s: State, o: OrderUtxo, t: u16)
    requires Live(s, o.Note(t)) && AllowsTake(o) && s.now <= o.terms.expiry
    ensures CanBeSettled(s, o, t)
  {
    var to: i64 := if s.now < 0 then 0 else s.now;
    var open := s.(now := to);
    var note, funded, take, last := TakenOnItsRail(open, o, t);
    SettlingKeepsTime(funded, take, last, o, t);
    SettledNow(funded, take, last, o, t);
    SettledLater(open, Deposit(note), funded, o, t);
    SettledLater(s, Tick(to), open, o, t);
  }

  /** From any state with the order live, on a clock that is not turned back, the order can still be
      settled exactly when it allows a cancel, or its window has not passed and it allows a take. An
      order that allows no cancel is stuck for good once its window has passed. */
  lemma CanBeSettledIff(s: State, o: OrderUtxo, t: u16)
    requires Live(s, o.Note(t))
    ensures CanBeSettled(s, o, t) <==> AllowsCancel(o) || (s.now <= o.terms.expiry && AllowsTake(o))
  {
    if CanBeSettled(s, o, t) {
      var states: seq<State>, steps: seq<Step>, i: nat :| SettledBy(s, states, steps, i, o, t);
      ClockGrows(s, states, steps, i);
      assert Next(states[i], steps[i], states[i + 1]);
      SettledOrder(states[i], steps[i], states[i + 1], o, t);
    } else if AllowsCancel(o) {
      CancelContinues(s, o, t);
    } else if s.now <= o.terms.expiry && AllowsTake(o) {
      TakeContinues(s, o, t);
    }
  }
}
