/** The import job: its state machine and the shape its schema demands of every status. */
module ImportJobs {
  import opened Sequences

  datatype Status = Queued | Running | Ready | Completed | Failed | Cancelled

  datatype Phase =
    | Preparing | Uploading | InQueue
    | Extracting | Validating | Enriching | Reconciling
    | ResultReady | Applying | Done
    | WaitingForNetwork | WaitingForDevice | WaitingForUnlock
    | RetryScheduled

  datatype ErrorCode =
    | Network | AiTimeout | AiBudgetExhausted | AiKeyInvalid | AiModelUnavailable | MalformedModelResponse
    | BudgetMismatch | TierMismatch | AccountUnavailable | Expired

  /** A time stamp as it arrives: only an ISO date-time with offset is accepted. */
  datatype Stamp = Iso(t: int) | Malformed

  datatype Job = Job(
    status: Status, phase: Phase, resumePhase: Option<Phase>, cancelRequested: bool, attempt: nat,
    errorCode: Option<ErrorCode>, retryAt: Option<Stamp>, updatedAt: Stamp)

  datatype Event =
    | Claimed(at: Stamp)
    | EnterPhase(phase: Phase, at: Stamp)
    | Wait(phase: Phase, at: Stamp)
    | Resume(at: Stamp)
    | HaveResult(at: Stamp)
    | BeginApply(at: Stamp)
    | Complete(at: Stamp)
    | Fail(errorCode: ErrorCode, retryAt: Option<Stamp>, at: Stamp)
    | Retry(at: Stamp)
    | Cancel(at: Stamp)
    | ConfirmCancel(at: Stamp)

  predicate IsQueuedPhase(p: Phase) { p in {Preparing, Uploading, InQueue} }
  predicate IsActivePhase(p: Phase) { p in {Extracting, Validating, Enriching, Reconciling} }
  predicate IsWaitingPhase(p: Phase) { p in {WaitingForNetwork, WaitingForDevice, WaitingForUnlock} }
  predicate IsFailedPhase(p: Phase) { IsQueuedPhase(p) || IsActivePhase(p) || IsWaitingPhase(p) || p == RetryScheduled }

  /** Position among the active phases, -1 for every other phase. */
  function ActiveIndex(p: Phase): int {
    match p case Extracting => 0 case Validating => 1 case Enriching => 2 case Reconciling => 3 case _ => -1
  }

  predicate IsTerminal(s: Status) { s == Completed || s == Cancelled }

  /** What the event types allow in their `phase` field. */
  predicate WellTyped(e: Event) {
    && (e.EnterPhase? ==> e.phase in {Validating, Enriching, Reconciling})
    && (e.Wait? ==> IsWaitingPhase(e.phase))
  }

  /** The phase work is in, or will return to. */
  function WorkingPhase(j: Job): Option<Phase> { if IsWaitingPhase(j.phase) then j.resumePhase else Some(j.phase) }

  function WorkingIndex(j: Job): int { if WorkingPhase(j).Some? then ActiveIndex(WorkingPhase(j).value) else -1 }

  /** The next job, or None for the invalid transition the source throws on. */
  function Advance(j: Job, e: Event): Option<Job> {
    if e.at.Malformed? || (e.Fail? && e.retryAt == Some(Malformed)) || IsTerminal(j.status) then None
    else
      var next := j.(updatedAt := e.at);
      match e
      case Claimed(_) =>
        if j.status != Queued then None
        else Some(next.(status := Running, phase := Extracting, resumePhase := None, attempt := j.attempt + 1,
                        errorCode := None, retryAt := None))
      case EnterPhase(phase, _) =>
        if j.status != Running || j.cancelRequested then None
        else if WorkingIndex(j) >= 0 && ActiveIndex(phase) <= WorkingIndex(j) then None
        else Some(next.(phase := phase, resumePhase := None))
      case Wait(phase, _) =>
        if j.status != Running || j.cancelRequested || !IsActivePhase(j.phase) then None
        else Some(next.(phase := phase, resumePhase := Some(j.phase)))
      case Resume(_) =>
        if j.status != Running || j.cancelRequested || !IsWaitingPhase(j.phase) || j.resumePhase.None? then None
        else Some(next.(phase := j.resumePhase.value, resumePhase := None))
      case HaveResult(_) =>
        if j.status != Running || j.cancelRequested then None
        else Some(next.(status := Ready, phase := ResultReady, resumePhase := None, errorCode := None, retryAt := None))
      case BeginApply(_) =>
        if j.status != Ready || j.cancelRequested then None
        else Some(next.(phase := Applying))
      case Complete(_) =>
        if j.status != Ready || j.phase != Applying then None
        else Some(next.(status := Completed, phase := Done))
      case Fail(errorCode, retryAt, _) =>
        if !(j.status == Queued || j.status == Running) || j.cancelRequested then None
        else Some(next.(status := Failed, phase := if retryAt.Some? then RetryScheduled
          else j.phase, resumePhase := None,
                        errorCode := Some(errorCode), retryAt := retryAt))
      case Retry(_) =>
        if j.status != Failed then None
        else Some(next.(status := Queued, phase := InQueue, resumePhase := None, errorCode := None, retryAt := None))
      case Cancel(_) =>
        if j.status == Running then Some(next.(cancelRequested := true))
        else Some(next.(status := Cancelled, resumePhase := None, cancelRequested := true, errorCode := None,
          retryAt := None))
      case ConfirmCancel(_) =>
        if j.status != Running || !j.cancelRequested then None
        else Some(next.(status := Cancelled, resumePhase := None))
  }

  /** The per-status rules of the job schema; `hasResult` says whether a result is stored with the job. */
  predicate WellShaped(j: Job, hasResult: bool) {
    var clean := j.errorCode.None? && j.retryAt.None?;
    match j.status
    case Queued => IsQueuedPhase(j.phase) && j.resumePhase.None? && !j.cancelRequested && clean
    case Running =>
      (IsActivePhase(j.phase) || IsWaitingPhase(j.phase)) && (IsWaitingPhase(j.phase) <==> j.resumePhase.Some?) &&
        clean &&
      (j.resumePhase.Some? ==> IsActivePhase(j.resumePhase.value))
    case Ready =>
      (j.phase == ResultReady || j.phase == Applying) && j.resumePhase.None? && !j.cancelRequested && clean && hasResult
    case Completed => j.phase == Done && j.resumePhase.None? && !j.cancelRequested && clean
    case Failed =>
      IsFailedPhase(j.phase) && j.errorCode.Some? && j.resumePhase.None? && !j.cancelRequested &&
      (j.retryAt.Some? <==> j.phase == RetryScheduled)
    case Cancelled => j.phase != Done && j.resumePhase.None? && j.cancelRequested && clean
  }

  /** The job after all events, or None once one of them is refused. */
  function RunJob(j: Job, events: seq<Event>): Option<Job>
    decreases |events|
  {
    if events == [] then Some(j)
    else
      var next := Advance(j, events[0]);
      if next.None? then None else RunJob(next.value, events[1..])
  }

  predicate AllTyped(events: seq<Event>) { forall e :: e in events ==> WellTyped(e) }

  // ---- which events a job accepts -------------------------------------------------------------------

  const WORK := [Extracting, Validating, Enriching, Reconciling]

  predicate LaterWork(q: Phase, p: Phase) { exists a, b :: 0 <= a < b < |WORK| && WORK[a] == p && WORK[b] == q }

  predicate Legible(e: Event) { e.at.Iso? && (e.Fail? && e.retryAt.Some? ==> e.retryAt.value.Iso?) }

  /** What each status accepts; a running job whose cancellation was requested waits for its confirmation only. */
  predicate Accepts(j: Job, e: Event) {
    match j.status
    case Queued => e.Claimed? || e.Fail? || e.Cancel?
    case Running =>
      if j.cancelRequested then e.Cancel? || e.ConfirmCancel?
      else
        || e.HaveResult? || e.Fail? || e.Cancel?
        || (e.EnterPhase? && LaterWork(e.phase, if j.resumePhase.Some? then j.resumePhase.value else j.phase))
        || (e.Wait? && j.resumePhase.None?) || (e.Resume? && j.resumePhase.Some?)
    case Ready => e.Cancel? || e.BeginApply? || (e.Complete? && j.phase == Applying)
    case Failed => e.Retry? || e.Cancel?
    case Completed => false
    case Cancelled => false
  }

  lemma LaterMeans(q: Phase, p: Phase)
    requires IsActivePhase(p) && q in {Validating, Enriching, Reconciling}
    ensures LaterWork(q, p) <==> ActiveIndex(q) > ActiveIndex(p)
  {
    assert WORK[0] == Extracting && WORK[1] == Validating && WORK[2] == Enriching && WORK[3] == Reconciling;
    assert WORK[ActiveIndex(q)] == q && WORK[ActiveIndex(p)] == p;
  }

  /** A job accepts exactly the events listed for its status, with time stamps that can be read. */
  lemma AcceptedEvents(j: Job, e: Event)
    requires WellShaped(j, true) && WellTyped(e)
    ensures Advance(j, e).Some? <==> Legible(e) && Accepts(j, e)
  {
    if j.status == Running && e.EnterPhase? {
      LaterMeans(e.phase, if j.resumePhase.Some? then j.resumePhase.value else j.phase);
    }
    hide LaterWork;
  }

  /** Where an accepted event leads. */
  function StatusAfter(j: Job, e: Event): Status {
    match e
    case Claimed(_) => Running
    case HaveResult(_) => Ready
    case Complete(_) => Completed
    case Fail(_, _, _) => Failed
    case Retry(_) => Queued
    case ConfirmCancel(_) => Cancelled
    case Cancel(_) => if j.status == Running then Running else Cancelled
    case _ => j.status
  }

  function PhaseAfter(j: Job, e: Event): Phase {
    match e
    case Claimed(_) => Extracting
    case EnterPhase(phase, _) => phase
    case Wait(phase, _) => phase
    case Resume(_) => if j.resumePhase.Some? then j.resumePhase.value else j.phase
    case HaveResult(_) => ResultReady
    case BeginApply(_) => Applying
    case Complete(_) => Done
    case Fail(_, retryAt, _) => if retryAt.Some? then RetryScheduled else j.phase
    case Retry(_) => InQueue
    case _ => j.phase
  }

  /** Each field of the job after an accepted event, of which only some are the event's own doing. */
  lemma AdvanceMeans(j: Job, e: Event)
    requires WellShaped(j, true) && WellTyped(e) && Advance(j, e).Some?
    ensures var next := Advance(j, e).value;
      && next.status == StatusAfter(j, e) && next.phase == PhaseAfter(j, e) && next.updatedAt == e.at
      && next.attempt == (if e.Claimed? then j.attempt + 1 else j.attempt)
      && (next.cancelRequested <==> j.cancelRequested || e.Cancel?)
      && next.resumePhase ==
        (if e.Wait? then Some(j.phase) else if e.Cancel? && j.status == Running then j.resumePhase else None)
      && next.errorCode == (if e.Fail? then Some(e.errorCode) else None)
      && next.retryAt == (if e.Fail? then e.retryAt else None)
  {
  }

  /** The result is stored before the job becomes ready; it is present at every ready state. */
  lemma StepKeepsShape(j: Job, e: Event)
    requires WellShaped(j, true) && WellTyped(e) && Advance(j, e).Some?
    ensures WellShaped(Advance(j, e).value, true)
  {
  }

  /** Every state reached from a valid job satisfies the shape of its status. */
  lemma {:induction false} ReachedJobsAreShaped(j: Job, events: seq<Event>)
    requires WellShaped(j, true) && AllTyped(events) && RunJob(j, events).Some?
    ensures WellShaped(RunJob(j, events).value, true)
    decreases |events|
  {
    if events == [] {
    } else {
      StepKeepsShape(j, events[0]);
      ReachedJobsAreShaped(Advance(j, events[0]).value, events[1..]);
    }
  }

  function Claims(events: seq<Event>): nat {
    if events == [] then 0 else (if events[0].Claimed? then 1 else 0) + Claims(events[1..])
  }

  /** `attempt` counts the claims. */
  lemma {:induction false} AttemptCountsClaims(j: Job, events: seq<Event>)
    requires RunJob(j, events).Some?
    ensures RunJob(j, events).value.attempt == j.attempt + Claims(events)
    decreases |events|
  {
    if events == [] {
    } else {
      AttemptCountsClaims(Advance(j, events[0]).value, events[1..]);
    }
  }

  /** Later in the same attempt, work is never at an earlier phase, across waits and resumes. */
  ghost predicate NotBefore(attempt: nat, index: int, j: Job) {
    j.attempt >= attempt && (j.attempt == attempt && j.status == Running ==> WorkingIndex(j) >= index)
  }

  lemma {:induction false} PhaseKept(attempt: nat, index: int, j: Job, events: seq<Event>)
    requires WellShaped(j, true) && AllTyped(events) && RunJob(j, events).Some?
    requires NotBefore(attempt, index, j)
    ensures NotBefore(attempt, index, RunJob(j, events).value)
    decreases |events|
  {
    if events == [] {
    } else {
      StepKeepsShape(j, events[0]);
      PhaseKept(attempt, index, Advance(j, events[0]).value, events[1..]);
    }
  }

  lemma {:induction false} PhaseNeverGoesBack(j: Job, events: seq<Event>)
    requires WellShaped(j, true) && AllTyped(events) && RunJob(j, events).Some?
    requires var end := RunJob(j, events).value;
      j.status == Running && end.status == Running && end.attempt == j.attempt
    ensures WorkingIndex(j) <= WorkingIndex(RunJob(j, events).value)
  {
    PhaseKept(j.attempt, WorkingIndex(j), j, events);
  }

  /** Once cancellation is requested the job keeps running towards it or is cancelled, nothing else. */
  lemma {:induction false} CancellationIsFinal(j: Job, events: seq<Event>)
    requires WellShaped(j, true) && AllTyped(events) && j.cancelRequested && RunJob(j, events).Some?
    ensures var end := RunJob(j, events).value;
            end.cancelRequested && (end.status == Running || end.status == Cancelled) &&
              (IsTerminal(end.status) ==> end.status == Cancelled)
    decreases |events|
  {
    if events == [] {
    } else {
      StepKeepsShape(j, events[0]);
      CancellationIsFinal(Advance(j, events[0]).value, events[1..]);
    }
  }

  lemma RunOne(j: Job, e: Event)
    ensures RunJob(j, [e]) == Advance(j, e)
  {
    assert [e][1..] == [];
  }

  /** Every unfinished job can be cancelled, in at most two events, and finished jobs accept nothing. */
  lemma CancelAlwaysPossible(j: Job, at: int)
    ensures IsTerminal(j.status) ==> forall e :: Advance(j, e).None?
    ensures !IsTerminal(j.status) ==>
      exists events :: 1 <= |events| <= 2 && RunJob(j, events).Some? && RunJob(j, events).value.status == Cancelled
  {
    if !IsTerminal(j.status) {
      var cancel, confirm := Cancel(Iso(at)), ConfirmCancel(Iso(at));
      var next := Advance(j, cancel).value;
      RunOne(j, cancel);
      RunOne(next, confirm);
      assert [cancel, confirm][1..] == [confirm];
      assert RunJob(j, [cancel, confirm]) == Advance(next, confirm);
      assert if j.status == Running then RunJob(j, [cancel, confirm]).Some? else RunJob(j, [cancel]).Some?;
    }
  }
}
