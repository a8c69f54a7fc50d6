// The registration gate under concurrency.
//
// Each registration runs a transaction that takes the gate's lock, looks for an account, deletes
// expired claims and either leaves a claim of its own or is refused; its account is inserted later,
// outside the lock. `now()` is fixed when the transaction begins, before it waits for the lock, and
// every statement sees what has been committed by the time it runs. A refused registration throws
// inside its transaction, so its deletes are rolled back.
module SignupGate {

  const CLAIM_TTL_SECONDS := 60

  type Proc = nat
  type Time = int

  datatype Deployment = SelfHost | Cloud

  datatype Policy = Policy(deployment: Deployment, allowSignups: string)

  predicate SignupsOpen(policy: Policy, hasCredentialedUser: bool) {
    policy.deployment == Cloud || policy.allowSignups == "1" || !hasCredentialedUser
  }

  predicate Closed(policy: Policy) { policy.deployment == SelfHost && policy.allowSignups != "1" }

  datatype Claim = Claim(owner: Proc, expires: Time)

  datatype Stage =
    | Idle
    | Waiting(now: Time)
    | Locked(now: Time)
    | LookedUp(now: Time, sawAccount: bool)
    | Swept(now: Time, sawAccount: bool, visible: set<Claim>)
    | Admitted(expires: Time)
    | AdmittedFreely
    | Refused
    | Registered
    | Aborted

  /** The stages in which the gate's lock is held. */
  predicate Holding(stage: Stage) { stage.Locked? || stage.LookedUp? || stage.Swept? }

  datatype State = State(
    policy: Policy, clock: Time, holder: set<Proc>, accounts: set<Proc>, claims: set<Claim>, stages: map<Proc, Stage>)

  function StageOf(s: State, p: Proc): Stage { if p in s.stages then s.stages[p] else Idle }

  datatype Step =
    | Begin(proc: Proc)
    | Acquire(proc: Proc)
    | LookUp(proc: Proc)
    | Sweep(proc: Proc)
    | Decide(proc: Proc)
    | CreateAccount(proc: Proc)
    | Abort(proc: Proc)
    | Tick(to: Time)

  predicate Enabled(s: State, step: Step) {
    match step
    case Begin(p) => StageOf(s, p).Idle?
    case Acquire(p) => StageOf(s, p).Waiting? && s.holder == {}
    case LookUp(p) => StageOf(s, p).Locked?
    case Sweep(p) => StageOf(s, p).LookedUp?
    case Decide(p) => StageOf(s, p).Swept?
    case CreateAccount(p) => StageOf(s, p).Admitted? || StageOf(s, p).AdmittedFreely?
    case Abort(p) => !StageOf(s, p).Registered?
    case Tick(to) => s.clock <= to
  }

  function Move(s: State, p: Proc, stage: Stage): State { s.(stages := s.stages[p := stage]) }

  function Unexpired(claims: set<Claim>, now: Time): set<Claim> { set c | c in claims && c.expires >= now }

  function Next(s: State, step: Step): State
    requires Enabled(s, step)
  {
    match step
    case Begin(p) => Move(s, p, Waiting(s.clock))
    case Acquire(p) => Move(s, p, Locked(StageOf(s, p).now)).(holder := {p})
    case LookUp(p) => Move(s, p, LookedUp(StageOf(s, p).now, s.accounts != {}))
    case Sweep(p) =>
      var stage := StageOf(s, p);
      Move(s, p, Swept(stage.now, stage.sawAccount, Unexpired(s.claims, stage.now)))
    case Decide(p) =>
      var stage := StageOf(s, p);
      if !SignupsOpen(s.policy, stage.sawAccount || stage.visible != {}) then Move(s, p, Refused).(holder := {})
      else if stage.sawAccount then Move(s, p, AdmittedFreely).(holder := {}, claims := stage.visible)
      else
        var claim := Claim(p, stage.now + CLAIM_TTL_SECONDS);
        Move(s, p, Admitted(claim.expires)).(holder := {}, claims := stage.visible + {claim})
    case CreateAccount(p) => Move(s, p, Registered).(accounts := s.accounts + {p})
    case Abort(p) => Move(s, p, Aborted).(holder := s.holder - {p})
    case Tick(to) => s.(clock := to)
  }

  predicate IsRun(s: State, steps: seq<Step>)
    decreases |steps|
  {
    steps == [] || (Enabled(s, steps[0]) && IsRun(Next(s, steps[0]), steps[1..]))
  }

  function End(s: State, steps: seq<Step>): State
    requires IsRun(s, steps)
    decreases |steps|
  {
    if steps == [] then s else End(Next(s, steps[0]), steps[1..])
  }

  /** Every admitted registration inserts its account no later than its claim expires. */
  predicate Timely(s: State, steps: seq<Step>)
    requires IsRun(s, steps)
    decreases |steps|
  {
    steps != [] ==>
      (steps[0].CreateAccount? && StageOf(s, steps[0].proc).Admitted? ==> s.clock <= StageOf(s, steps[0].proc).expires)
      && Timely(Next(s, steps[0]), steps[1..])
  }

  predicate Initial(s: State) { s.holder == {} && s.accounts == {} && s.stages == map[] }

  // ---- who is admitted ----------------------------------------------------------------------------

  /**
   * A registration is refused only on a closed install that has an account or a claim that has not
   * expired; admitted, it leaves a claim for a minute unless there is an account already.
   */
  lemma DecisionMeans(s: State, p: Proc)
    requires StageOf(s, p).Swept?
    ensures var stage, next := StageOf(s, p), Next(s, Decide(p));
      var closed := s.policy.deployment == SelfHost && s.policy.allowSignups != "1";
      && next.accounts == s.accounts && next.clock == s.clock && next.policy == s.policy && next.holder == {}
      && (StageOf(next, p).Refused? <==> closed && (stage.sawAccount || stage.visible != {}))
      && (StageOf(next, p).Refused? ==> next.claims == s.claims)
      && (!StageOf(next, p).Refused? && stage.sawAccount ==>
        StageOf(next, p) == AdmittedFreely && next.claims == stage.visible)
      && (!StageOf(next, p).Refused? && !stage.sawAccount ==>
        StageOf(next, p) == Admitted(stage.now + 60) && next.claims == stage.visible + {Claim(p, stage.now + 60)})
      && forall q :: q != p ==> StageOf(next, q) == StageOf(s, q)
  {
  }

  /** On an open install nobody is ever refused, in no interleaving. */
  lemma {:induction false} OpenRefusesNobody(s: State, steps: seq<Step>)
    requires IsRun(s, steps) && (s.policy.deployment == Cloud || s.policy.allowSignups == "1")
    requires forall p :: !StageOf(s, p).Refused?
    ensures forall p :: !StageOf(End(s, steps), p).Refused?
    decreases |steps|
  {
    if steps != [] {
      OpenStep(s, steps[0]);
      OpenRefusesNobody(Next(s, steps[0]), steps[1..]);
    }
  }

  lemma OpenStep(s: State, step: Step)
    requires Enabled(s, step) && (s.policy.deployment == Cloud || s.policy.allowSignups == "1")
    requires forall p :: !StageOf(s, p).Refused?
    ensures Next(s, step).policy == s.policy && forall p :: !StageOf(Next(s, step), p).Refused?
  {
    var next := Next(s, step);
    forall q ensures !StageOf(next, q).Refused? {
      if step.Tick? || q != step.proc { assert StageOf(next, q) == StageOf(s, q); }
    }
  }

  // ---- at most one account ------------------------------------------------------------------------

  /** Admitted, not yet registered, and its claim has not expired. */
  predicate Live(s: State, p: Proc) { StageOf(s, p).Admitted? && s.clock <= StageOf(s, p).expires }

  predicate LockHeld(s: State) {
    forall p :: p in s.stages ==> (Holding(s.stages[p]) <==> p in s.holder)
  }

  predicate OneHolder(s: State) { forall p, q :: p in s.holder && q in s.holder ==> p == q }

  /** A gate's `now` never lies in the future. */
  predicate PastNow(s: State) {
    forall p :: p in s.stages && (s.stages[p].Waiting? || Holding(s.stages[p])) ==> s.stages[p].now <= s.clock
  }

  predicate LiveIsClaimed(s: State) {
    forall p :: p in s.stages && Live(s, p) ==> Claim(p, s.stages[p].expires) in s.claims
  }

  predicate OneLive(s: State) { forall p, q :: p in s.stages && q in s.stages && Live(s, p) && Live(s, q) ==> p == q }

  predicate OneAccount(s: State) { forall p, q :: p in s.accounts && q in s.accounts ==> p == q }

  predicate AccountEndsClaims(s: State) { s.accounts != {} ==> forall p :: p in s.stages ==> !Live(s, p) }

  /** What a gate has swept is what is still there: nobody else writes claims while it holds the lock. */
  predicate SweptIsCurrent(s: State) {
    forall p :: p in s.stages && s.stages[p].Swept? ==> s.stages[p].visible == Unexpired(s.claims, s.stages[p].now)
  }

  /** An account a gate overlooked, because it was inserted after the look-up, still has its claim. */
  predicate OverlookedIsClaimed(s: State) {
    forall p, a ::
      p in s.stages && (s.stages[p].LookedUp? || s.stages[p].Swept?) && !s.stages[p].sawAccount && a in s.accounts ==>
      exists c :: c in s.claims && c.owner == a && c.expires >= s.stages[p].now
  }

  predicate NeverFree(s: State) { forall p :: p in s.stages ==> !s.stages[p].AdmittedFreely? }

  predicate Safe(s: State) {
    && Closed(s.policy)
    && LockHeld(s) && OneHolder(s) && PastNow(s) && LiveIsClaimed(s) && OneLive(s) && OneAccount(s)
    && AccountEndsClaims(s) && SweptIsCurrent(s) && OverlookedIsClaimed(s) && NeverFree(s)
    && (forall p :: p in s.holder ==> p in s.stages)
  }

  /** A gate that overlooked an account, or a live registration, sees a claim after its sweep. */
  lemma SweepSeesClaims(s: State, p: Proc)
    requires Safe(s) && StageOf(s, p).Swept? && !StageOf(s, p).sawAccount
    ensures s.accounts != {} ==> StageOf(s, p).visible != {}
    ensures forall q :: q in s.stages && Live(s, q) ==> StageOf(s, p).visible != {}
  {
    var stage := StageOf(s, p);
    if a :| a in s.accounts {
      var c :| c in s.claims && c.owner == a && c.expires >= stage.now;
      assert c in stage.visible;
    }
    forall q | q in s.stages && Live(s, q) ensures stage.visible != {} {
      assert Claim(q, s.stages[q].expires) in stage.visible;
    }
  }

  lemma DecideKeepsSafe(s: State, p: Proc)
    requires Safe(s) && Enabled(s, Decide(p))
    ensures Safe(Next(s, Decide(p)))
  {
    if !StageOf(s, p).sawAccount { SweepSeesClaims(s, p); }
    assert forall q :: q in s.stages && Holding(s.stages[q]) ==> q == p;
  }

  lemma CreateAccountKeepsSafe(s: State, p: Proc)
    requires Safe(s) && Enabled(s, CreateAccount(p)) && Live(s, p)
    ensures Safe(Next(s, CreateAccount(p)))
  {
    var s' := Next(s, CreateAccount(p));
    assert s.accounts == {};
    assert Claim(p, s.stages[p].expires) in s'.claims;
    forall q, a | q in s'.stages && (s'.stages[q].LookedUp? || s'.stages[q].Swept?) && !s'.stages[q].sawAccount &&
      a in s'.accounts
      ensures exists c :: c in s'.claims && c.owner == a && c.expires >= s'.stages[q].now
    {
      assert a == p;
    }
  }

  lemma AcquireKeepsSafe(s: State, step: Step)
    requires Safe(s) && Enabled(s, step) && step.Acquire?
    ensures Safe(Next(s, step))
  {
  }

  lemma LookUpKeepsSafe(s: State, step: Step)
    requires Safe(s) && Enabled(s, step) && step.LookUp?
    ensures Safe(Next(s, step))
  {
  }

  lemma SweepKeepsSafe(s: State, step: Step)
    requires Safe(s) && Enabled(s, step) && step.Sweep?
    ensures Safe(Next(s, step))
  {
  }

  lemma BeginKeepsSafe(s: State, step: Step)
    requires Safe(s) && Enabled(s, step) && step.Begin?
    ensures Safe(Next(s, step))
  {
  }

  lemma AbortKeepsSafe(s: State, step: Step)
    requires Safe(s) && Enabled(s, step) && step.Abort?
    ensures Safe(Next(s, step))
  {
  }

  lemma TickKeepsSafe(s: State, step: Step)
    requires Safe(s) && Enabled(s, step) && step.Tick?
    ensures Safe(Next(s, step))
  {
  }

  lemma StepKeepsSafe(s: State, step: Step)
    requires Safe(s) && Enabled(s, step)
    requires step.CreateAccount? ==> Live(s, step.proc)
    ensures Safe(Next(s, step))
  {
    hide Safe;
    match step
    case Decide(p) => DecideKeepsSafe(s, p);
    case CreateAccount(p) => CreateAccountKeepsSafe(s, p);
    case Acquire(_) => AcquireKeepsSafe(s, step);
    case LookUp(_) => LookUpKeepsSafe(s, step);
    case Sweep(_) => SweepKeepsSafe(s, step);
    case Begin(_) => BeginKeepsSafe(s, step);
    case Abort(_) => AbortKeepsSafe(s, step);
    case Tick(_) => TickKeepsSafe(s, step);
  }

  lemma NeverFreeStep(s: State, step: Step)
    requires Safe(s) && Enabled(s, step)
    ensures step.CreateAccount? ==> StageOf(s, step.proc).Admitted?
  {
  }

  lemma {:induction false} RunKeepsSafe(s: State, steps: seq<Step>)
    requires Safe(s) && IsRun(s, steps) && Timely(s, steps)
    ensures Safe(End(s, steps))
    decreases |steps|
  {
    if steps == [] {
    } else {
      NeverFreeStep(s, steps[0]);
      hide Safe;
      StepKeepsSafe(s, steps[0]);
      RunKeepsSafe(Next(s, steps[0]), steps[1..]);
    }
  }

  /** On a closed self-hosted install every timely interleaving creates at most one account. */
  lemma {:induction false} AtMostOneAccount(s: State, steps: seq<Step>)
    requires Initial(s) && Closed(s.policy) && IsRun(s, steps) && Timely(s, steps)
    ensures |End(s, steps).accounts| <= 1
  {
    RunKeepsSafe(s, steps);
    var accounts := End(s, steps).accounts;
    if p :| p in accounts { assert accounts == {p}; }
  }

  // ---- why the deadline is needed, and why a crash does not lock the install out --------------------

  /** One registration going straight through the gate. */
  function Through(p: Proc): seq<Step> { [Begin(p), Acquire(p), LookUp(p), Sweep(p), Decide(p)] }

  lemma {:induction false} RunSplit(s: State, a: seq<Step>, b: seq<Step>)
    requires IsRun(s, a) && IsRun(End(s, a), b)
    ensures IsRun(s, a + b) && End(s, a + b) == End(End(s, a), b)
    decreases |a|
  {
    if a == [] {
      assert a + b == b;
    } else {
      assert (a + b)[1..] == a[1..] + b;
      RunSplit(Next(s, a[0]), a[1..], b);
    }
  }

  lemma RunOne(s: State, step: Step)
    requires Enabled(s, step)
    ensures IsRun(s, [step]) && End(s, [step]) == Next(s, step)
  {
    assert [step][1..] == [];
  }

  /** With no account and only expired claims, a registration that finds the lock free is admitted. */
  lemma ExpiredClaimsDoNotBlock(s: State, p: Proc)
    requires StageOf(s, p).Idle? && s.holder == {} && s.accounts == {}
    requires forall c :: c in s.claims ==> c.expires < s.clock
    ensures IsRun(s, Through(p))
    ensures var end := End(s, Through(p));
            StageOf(end, p) == Admitted(s.clock + CLAIM_TTL_SECONDS) &&
              end.claims == {Claim(p, s.clock + CLAIM_TTL_SECONDS)} &&
            end.holder == {} && end.accounts == {} && end.clock == s.clock && end.policy == s.policy
    ensures forall q :: q != p ==> StageOf(End(s, Through(p)), q) == StageOf(s, q)
  {
    var s1 := Next(s, Begin(p));
    var s2 := Next(s1, Acquire(p));
    var s3 := Next(s2, LookUp(p));
    var s4 := Next(s3, Sweep(p));
    assert Unexpired(s.claims, s.clock) == {};
    var s5 := Next(s4, Decide(p));
    assert Through(p)[1..] == [Acquire(p), LookUp(p), Sweep(p), Decide(p)];
    assert Through(p)[1..][1..] == [LookUp(p), Sweep(p), Decide(p)];
    assert Through(p)[1..][1..][1..] == [Sweep(p), Decide(p)];
    RunOne(s4, Decide(p));
    assert Through(p)[1..][1..][1..][1..] == [Decide(p)];
    assert IsRun(s3, [Sweep(p), Decide(p)]) && End(s3, [Sweep(p), Decide(p)]) == s5;
    assert IsRun(s2, [LookUp(p), Sweep(p), Decide(p)]) && End(s2, [LookUp(p), Sweep(p), Decide(p)]) == s5;
    assert IsRun(s1, [Acquire(p), LookUp(p), Sweep(p), Decide(p)]) &&
      End(s1, [Acquire(p), LookUp(p), Sweep(p), Decide(p)]) == s5;
  }

  /** Two registrations whose accounts are both inserted after the first claim has expired. */
  function LateSteps(start: Time): seq<Step> {
    Through(1) + [Tick(start + CLAIM_TTL_SECONDS + 1)] + Through(2) + [CreateAccount(1), CreateAccount(2)]
  }

  /** Without the deadline two accounts can be created, on any closed install, from any first state. */
  lemma LateRegistrationsCollide(s: State)
    requires Initial(s) && Closed(s.policy) && s.claims == {}
    ensures IsRun(s, LateSteps(s.clock)) && End(s, LateSteps(s.clock)).accounts == {1, 2}
    ensures InsertsWithin(s, LateSteps(s.clock), CLAIM_TTL_SECONDS + 1)
  {
    hide IsRun, End, InsertsWithin;
    ExpiredClaimsDoNotBlock(s, 1);
    var a := End(s, Through(1));
    var tick := Tick(s.clock + CLAIM_TTL_SECONDS + 1);
    RunOne(a, tick);
    RunSplit(s, Through(1), [tick]);
    var b := Next(a, tick);
    assert StageOf(b, 2) == StageOf(a, 2) == StageOf(s, 2) == Idle;
    assert StageOf(b, 1) == StageOf(a, 1);
    ExpiredClaimsDoNotBlock(b, 2);
    RunSplit(s, Through(1) + [tick], Through(2));
    var c := End(b, Through(2));
    assert StageOf(c, 1) == StageOf(b, 1) && StageOf(c, 1).Admitted? && StageOf(c, 2).Admitted?;
    RunOne(c, CreateAccount(1));
    var d := Next(c, CreateAccount(1));
    RunOne(d, CreateAccount(2));
    RunSplit(c, [CreateAccount(1)], [CreateAccount(2)]);
    assert [CreateAccount(1)] + [CreateAccount(2)] == [CreateAccount(1), CreateAccount(2)];
    RunSplit(s, Through(1) + [tick] + Through(2), [CreateAccount(1), CreateAccount(2)]);
    NoInserts(s, Through(1) + [tick] + Through(2), CLAIM_TTL_SECONDS + 1);
    TwoInserts(c, CLAIM_TTL_SECONDS + 1);
    WithinSplit(s, Through(1) + [tick] + Through(2), [CreateAccount(1), CreateAccount(2)], CLAIM_TTL_SECONDS + 1);
  }

  // ---- the exact deadline ---------------------------------------------------------------------------

  /** Every registration admitted with a claim inserts its account within `limit` seconds of its gate's `now`. */
  predicate InsertsWithin(s: State, steps: seq<Step>, limit: int)
    requires IsRun(s, steps)
    decreases |steps|
  {
    steps != [] ==>
      (steps[0].CreateAccount? && StageOf(s, steps[0].proc).Admitted? ==>
        s.clock <= StageOf(s, steps[0].proc).expires - CLAIM_TTL_SECONDS + limit)
      && InsertsWithin(Next(s, steps[0]), steps[1..], limit)
  }

  lemma {:induction false} SoonIsTimely(s: State, steps: seq<Step>, limit: int)
    requires IsRun(s, steps) && InsertsWithin(s, steps, limit) && limit <= CLAIM_TTL_SECONDS
    ensures Timely(s, steps)
    decreases |steps|
  {
    if steps != [] { SoonIsTimely(Next(s, steps[0]), steps[1..], limit); }
  }

  lemma {:induction false} NoInserts(s: State, steps: seq<Step>, limit: int)
    requires IsRun(s, steps) && forall step :: step in steps ==> !step.CreateAccount?
    ensures InsertsWithin(s, steps, limit)
    decreases |steps|
  {
    if steps != [] {
      assert forall step :: step in steps[1..] ==> step in steps;
      NoInserts(Next(s, steps[0]), steps[1..], limit);
    }
  }

  lemma {:induction false} WithinSplit(s: State, a: seq<Step>, b: seq<Step>, limit: int)
    requires IsRun(s, a) && IsRun(End(s, a), b) && IsRun(s, a + b)
    requires InsertsWithin(s, a, limit) && InsertsWithin(End(s, a), b, limit)
    ensures InsertsWithin(s, a + b, limit)
    decreases |a|
  {
    if a == [] {
      assert a + b == b;
    } else {
      assert (a + b)[1..] == a[1..] + b;
      WithinSplit(Next(s, a[0]), a[1..], b, limit);
    }
  }

  lemma TwoInserts(s: State, limit: int)
    requires StageOf(s, 1).Admitted? && StageOf(s, 2).Admitted?
    requires s.clock <= StageOf(s, 1).expires - CLAIM_TTL_SECONDS + limit
    requires s.clock <= StageOf(s, 2).expires - CLAIM_TTL_SECONDS + limit
    ensures IsRun(s, [CreateAccount(1), CreateAccount(2)]) &&
      InsertsWithin(s, [CreateAccount(1), CreateAccount(2)], limit)
  {
    assert [CreateAccount(1), CreateAccount(2)][1..] == [CreateAccount(2)] && [CreateAccount(2)][1..] == [];
    assert IsRun(Next(s, CreateAccount(1)), [CreateAccount(2)]);
  }

  function FirstState(): State { State(Policy(SelfHost, ""), 0, {}, {}, {}, map[]) }

  lemma {:induction false} LongerLimit(s: State, steps: seq<Step>, limit: int, more: int)
    requires IsRun(s, steps) && InsertsWithin(s, steps, limit) && limit <= more
    ensures InsertsWithin(s, steps, more)
    decreases |steps|
  {
    if steps != [] { LongerLimit(Next(s, steps[0]), steps[1..], limit, more); }
  }

  ghost predicate OneAccountWithin(limit: int) {
    forall s: State, steps ::
      Initial(s) && Closed(s.policy) && IsRun(s, steps) && InsertsWithin(s, steps, limit) ==>
        |End(s, steps).accounts| <= 1
  }

  /** Inserting within `limit` seconds keeps every closed install at one account exactly up to the claim's lifetime. */
  lemma DeadlineIsExact(limit: int)
    ensures OneAccountWithin(limit) <==> limit <= CLAIM_TTL_SECONDS
  {
    if limit <= CLAIM_TTL_SECONDS {
      forall s: State, steps | Initial(s) && Closed(s.policy) && IsRun(s, steps) && InsertsWithin(s, steps, limit)
        ensures |End(s, steps).accounts| <= 1
      {
        SoonIsTimely(s, steps, limit);
        AtMostOneAccount(s, steps);
      }
    } else {
      hide IsRun, End, InsertsWithin;
      var s := FirstState();
      LateRegistrationsCollide(s);
      LongerLimit(s, LateSteps(s.clock), CLAIM_TTL_SECONDS + 1, limit);
      var both: set<Proc> := {1, 2};
      assert |both| == 2 && End(s, LateSteps(s.clock)).accounts == both;
    }
  }
}
