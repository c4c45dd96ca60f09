/** Runs of both programs over one pool, and what a step does to a committed note. */
module Runs {
  import opened Ideal
  import opened Notes
  import opened Pool
  import opened Runtime
  import opened SwapProgram
  import opened EscrowProgram

  /** What the pool makes of a processor's call. */
  function Outcome(s: State, call: Result<PoolCall, Error>): Result<State, Error> {
    match call
    case Err(e) => Err(e)
    case Ok(c) => if Accepts(s, c.transact, c.signers) then Ok(Apply(s, c.transact)) else Err(RejectedByPool)
  }

  datatype Step =
    | Tick(to: i64)
    | Deposit(note: Utxo)
    | Transfer(transact: Transact, signers: set<Fe>)
    | Make(accounts: seq<Account>, make: MakeIx)
    | Take(accounts: seq<Account>, take: TakeIx)
    | VerifiableTake(accounts: seq<Account>, verifiableTake: VerifiableTakeIx)
    | Cancel(accounts: seq<Account>, cancel: CancelIx)
    | Escrow(accounts: seq<Account>, escrow: EscrowIx)
    | Withdraw(accounts: seq<Account>, withdraw: WithdrawIx)

  /** The transaction an instruction carries; a make's still lacks its marker. */
  function Carried(step: Step): Transact
    requires !step.Tick? && !step.Deposit?
  {
    match step
    case Transfer(transact, _) => transact
    case Make(_, ix) => ix.transact
    case Take(_, ix) => ix.transact
    case VerifiableTake(_, ix) => ix.transact
    case Cancel(_, ix) => ix.transact
    case Escrow(_, ix) => ix.transact
    case Withdraw(_, ix) => ix.transact
  }

  /** The call a step forwards to the pool at time `now`. */
  function StepCall(now: i64, step: Step): Result<PoolCall, Error>
    requires !step.Tick? && !step.Deposit?
  {
    match step
    case Transfer(transact, signers) => Ok(PoolCall(transact, signers))
    case Make(accounts, ix) => MakeCall(accounts, Some(ix))
    case Take(accounts, ix) => TakeCall(now, accounts, Some(ix))
    case VerifiableTake(accounts, ix) => VerifiableTakeCall(now, accounts, Some(ix))
    case Cancel(accounts, ix) => CancelCall(now, accounts, Some(ix))
    case Escrow(accounts, ix) => EscrowCall(accounts, Some(ix))
    case Withdraw(accounts, ix) => WithdrawCall(now, accounts, Some(ix))
  }

  /** The authorities hold no key: only their own program signs for them. */
  predicate Signable(step: Step) {
    match step
    case Tick(_) => true
    case Deposit(_) => true
    case Transfer(_, signers) =>
      SolanaIdentity(ORDER_AUTHORITY) !in signers && SolanaIdentity(ESCROW_AUTHORITY) !in signers
    case _ => NoAuthoritySigns(step.accounts)
  }

  predicate Next(s: State, step: Step, s': State) {
    match step
    case Tick(to) => s' == s.(now := to)
    case Deposit(note) => s' == s.(leaves := s.leaves + {Commitment(note)})
    case _ => Signable(step) && Outcome(s, StepCall(s.now, step)) == Ok(s')
  }

  /** What an accepted step says: its call was forwarded, the pool accepted it, and the state is what the pool
      made of it. */
  lemma AcceptedStep(s: State, step: Step, s': State) returns (call: PoolCall)
    requires Next(s, step, s') && !step.Tick? && !step.Deposit?
    ensures StepCall(s.now, step) == Ok(call) && Accepts(s, call.transact, call.signers)
    ensures s' == Apply(s, call.transact)
  {
    call := StepCall(s.now, step).value;
  }

  predicate Run(states: seq<State>, steps: seq<Step>) {
    && |states| == |steps| + 1
    && (forall i :: 0 <= i < |steps| ==> Next(states[i], steps[i], states[i + 1]))
  }

  lemma Extend(states: seq<State>, steps: seq<Step>, a: Step, x: State)
    requires Run(states, steps) && Next(states[|steps|], a, x)
    ensures Run(states + [x], steps + [a])
  {
    var longer, more := states + [x], steps + [a];
    forall i | 0 <= i < |more|
      ensures Next(longer[i], more[i], longer[i + 1])
    {
      if i < |steps| {
        assert Next(states[i], steps[i], states[i + 1]);
      }
    }
  }

  lemma ExtendTwice(states: seq<State>, steps: seq<Step>, a: Step, x: State, b: Step, y: State)
    requires Run(states, steps) && Next(states[|steps|], a, x) && Next(x, b, y)
    ensures Run(states + [x, y], steps + [a, b])
  {
    Extend(states, steps, a, x);
    Extend(states + [x], steps + [a], b, y);
    assert states + [x] + [y] == states + [x, y] && steps + [a] + [b] == steps + [a, b];
  }

  /** The step reached the pool and `u` is among the notes it spent. */
  predicate Spends(now: i64, step: Step, u: Utxo) {
    && !step.Tick? && !step.Deposit?
    && StepCall(now, step).Ok?
    && Consumes(StepCall(now, step).value.transact, u)
  }

  /** No processor forwards a call whose first account does not sign, or cannot pay; a refund also needs
      the signature of the second. */
  lemma ForwardedIsSigned(now: i64, step: Step)
    requires !step.Tick? && !step.Deposit? && !step.Transfer? && StepCall(now, step).Ok?
    ensures |step.accounts| > 0 && step.accounts[0].isSigner && step.accounts[0].isWritable
    ensures step.Cancel? || step.Withdraw? ==> |step.accounts| > 1 && step.accounts[1].isSigner
  {
  }

  lemma TakesForward(now: i64, step: Step)
    requires (step.Take? || step.VerifiableTake?) && StepCall(now, step).Ok?
    ensures StepCall(now, step).value.transact == Carried(step)
  {
  }

  lemma RefundsForward(now: i64, step: Step)
    requires (step.Cancel? || step.Withdraw?) && StepCall(now, step).Ok?
    ensures StepCall(now, step).value.transact == Carried(step)
  {
  }

  lemma LocksForward(now: i64, step: Step)
    requires (step.Make? || step.Escrow? || step.Transfer?) && StepCall(now, step).Ok?
    ensures StepCall(now, step).value.transact.proof == Carried(step).proof
  {
  }

  /** No processor changes which notes its transaction spends. */
  lemma CarriedIsForwarded(now: i64, step: Step, u: Utxo)
    requires !step.Tick? && !step.Deposit? && StepCall(now, step).Ok?
    ensures Spends(now, step, u) <==> Consumes(Carried(step), u)
  {
    if step.Take? || step.VerifiableTake? {
      TakesForward(now, step);
    } else if step.Cancel? || step.Withdraw? {
      RefundsForward(now, step);
    } else {
      LocksForward(now, step);
    }
  }

  /* Notes owned by an authority. */

  function AuthorityOwner(authority: Address): Fe {
    Poseidon([SolanaIdentity(authority), NullifierKey(ZERO)])
  }

  function AuthorityNullifier(u: Utxo): Fe {
    Nullifier(Commitment(u), u.blinding, ZERO)
  }

  predicate Live(s: State, u: Utxo) {
    Commitment(u) in s.leaves && AuthorityNullifier(u) !in s.spent
  }

  /** Only the steps of its own program carry an authority's signature. */
  predicate StepOf(step: Step, authority: Address) {
    if authority == ORDER_AUTHORITY then step.Make? || step.Take? || step.VerifiableTake? || step.Cancel?
    else step.Escrow? || step.Withdraw?
  }

  function ProgramAuthority(step: Step): Address {
    if step.Escrow? || step.Withdraw? then ESCROW_AUTHORITY else ORDER_AUTHORITY
  }

  /** Accounts the processor itself consumes before forwarding the rest. */
  function Consumed(step: Step): nat {
    if step.Cancel? || step.Withdraw? then 2 else 1
  }

  lemma SignersOfStep(now: i64, step: Step)
    requires !step.Tick? && !step.Deposit? && !step.Transfer? && StepCall(now, step).Ok?
    ensures Consumed(step) <= |step.accounts|
    ensures StepCall(now, step).value.signers == CallSigners(step.accounts[Consumed(step)..], ProgramAuthority(step))
  {
  }

  lemma AuthoritySignsOwnSteps(s: State, step: Step, s': State, authority: Address)
    requires Next(s, step, s') && !step.Tick? && !step.Deposit?
    requires IsAuthority(authority) && SolanaIdentity(authority) in StepCall(s.now, step).value.signers
    ensures StepOf(step, authority)
  {
    AuthoritiesDiffer();
    if !step.Transfer? {
      SignersOfStep(s.now, step);
    }
  }

  /** One step and one authority-owned note: the note stays where it is, its nullifier is published
      exactly when the step spends it, and then it was live and the step is its own program's. */
  lemma StepOnNote(s: State, step: Step, s': State, u: Utxo, authority: Address)
    requires Next(s, step, s')
    requires IsAuthority(authority) && u.owner == AuthorityOwner(authority)
    ensures s.leaves <= s'.leaves && s.spent <= s'.spent
    ensures AuthorityNullifier(u) in s'.spent <==> AuthorityNullifier(u) in s.spent || Spends(s.now, step, u)
    ensures Spends(s.now, step, u) ==> Live(s, u) && StepOf(step, authority)
  {
    if !step.Tick? && !step.Deposit? {
      var call := StepCall(s.now, step).value;
      PublishedIffConsumed(s, call.transact, call.signers, u, SolanaIdentity(authority), ZERO);
      if Spends(s.now, step, u) {
        AuthoritySignsOwnSteps(s, step, s', authority);
      }
    }
  }

  /* Counting the steps of a run that a property marks. */

  function Count(marks: seq<bool>): nat {
    if marks == [] then 0
    else Count(marks[..|marks| - 1]) + if marks[|marks| - 1] then 1 else 0
  }

  /** The count is zero, or at most one, just when no step, or no two steps, are marked. */
  lemma {:induction false} CountMeaning(marks: seq<bool>)
    ensures Count(marks) == 0 <==> forall i :: 0 <= i < |marks| ==> !marks[i]
    ensures Count(marks) <= 1 <==> forall i, j :: 0 <= i < j < |marks| ==> !(marks[i] && marks[j])
  {
    if marks != [] {
      var last := |marks| - 1;
      CountMeaning(marks[..last]);
      assert forall i :: 0 <= i < last ==> marks[..last][i] == marks[i];
    }
  }

  /** Marking fewer steps counts less, and counts the same only if no step is missed. */
  lemma {:induction false} CountOfImplied(a: seq<bool>, b: seq<bool>)
    requires |a| == |b| && forall i :: 0 <= i < |a| && a[i] ==> b[i]
    ensures Count(a) <= Count(b)
    ensures Count(a) == Count(b) <==> a == b
  {
    if a != [] {
      var last := |a| - 1;
      CountOfImplied(a[..last], b[..last]);
      assert a == a[..last] + [a[last]] && b == b[..last] + [b[last]];
    }
  }

  /** Which steps of a run spend `u`. */
  function SpendMarks(states: seq<State>, steps: seq<Step>, u: Utxo): (marks: seq<bool>)
    requires |states| == |steps| + 1
    ensures |marks| == |steps|
  {
    seq(|steps|, i requires 0 <= i < |steps| => Spends(states[i].now, steps[i], u))
  }

  lemma {:induction false} SpentOnceUpTo(states: seq<State>, steps: seq<Step>, n: nat, u: Utxo, authority: Address)
    requires Run(states, steps) && states[0].spent == {} && n <= |steps|
    requires IsAuthority(authority) && u.owner == AuthorityOwner(authority)
    ensures Count(SpendMarks(states, steps, u)[..n]) == if AuthorityNullifier(u) in states[n].spent then 1 else 0
  {
    if n > 0 {
      SpentOnceUpTo(states, steps, n - 1, u, authority);
      StepOnNote(states[n - 1], steps[n - 1], states[n], u, authority);
      assert SpendMarks(states, steps, u)[..n][..n - 1] == SpendMarks(states, steps, u)[..n - 1];
    }
  }

  /** An authority's note is spent by one step of a run if its nullifier was published, and by none
      otherwise. */
  lemma SpentOnce(states: seq<State>, steps: seq<Step>, u: Utxo, authority: Address)
    requires Run(states, steps) && states[0].spent == {}
    requires IsAuthority(authority) && u.owner == AuthorityOwner(authority)
    ensures Count(SpendMarks(states, steps, u)) == if AuthorityNullifier(u) in states[|steps|].spent then 1 else 0
  {
    SpentOnceUpTo(states, steps, |steps|, u, authority);
    assert SpendMarks(states, steps, u)[..|steps|] == SpendMarks(states, steps, u);
  }
}
