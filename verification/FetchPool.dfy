/**
  The fetch worker pool: a sender hands artifacts over an unbuffered channel to workers,
  any of which may be cut short by cancellation. Every schedule is a sequence of the
  steps below; shown for all of them: no artifact is processed twice, no state is stuck,
  every run ends, and the returned error is nil exactly when all artifacts succeeded
  and nothing was cancelled.
 */
module FetchPool {
  import opened Prelude

  datatype Sender = AtCheck(i: nat) | AtSelect(i: nat) | Closing | Waiting | Returned

  datatype Worker = Idle | Got(i: nat) | Running(i: nat) | Ran(i: nat, ok: bool) | Exited

  /** What became of one artifact. */
  datatype Fate = Unsent | Skipped | Held(worker: nat) | Dropped | Done(ok: bool)

  datatype Pool = Pool(
    sender: Sender, closed: bool, cancelled: bool, workers: seq<Worker>,
    succeeded: nat, firstErr: Option<nat>, fates: seq<Fate>, calls: seq<nat>)

  datatype Outcome = Outcome(attempted: nat, succeeded: nat, failed: int, complete: bool, failure: bool)

  datatype Step =
    | Cancel
    | Check                          // the sender looks at the context before an artifact
    | Handoff(w: nat)                // an idle worker takes the artifact the sender offers
    | Skip                           // the sender sees the cancellation while offering
    | Close
    | Look(w: nat)                   // a worker looks at the context before processing
    | Finish(w: nat, ok: bool)       // process returns
    | Record(w: nat)                 // the worker books the outcome under the mutex
    | Leave(w: nat)                  // an idle worker sees the closed channel
    | Return                         // every worker has left

  function Start(n: nat, concurrency: nat): Pool {
    var workers := if concurrency < n then concurrency else n;
    Pool(AtCheck(0), false, false, seq(workers, _ => Idle), 0, None, seq(n, _ => Unsent), seq(n, _ => 0))
  }

  predicate Enabled(p: Pool, step: Step) {
    match step
    case Cancel => p.sender != Returned
    case Check => p.sender.AtCheck?
    case Handoff(w) => p.sender.AtSelect? && w < |p.workers| && p.workers[w] == Idle
    case Skip => p.sender.AtSelect? && p.cancelled
    case Close => p.sender == Closing
    case Look(w) => w < |p.workers| && p.workers[w].Got?
    case Finish(w, _) => w < |p.workers| && p.workers[w].Running?
    case Record(w) => w < |p.workers| && p.workers[w].Ran?
    case Leave(w) => w < |p.workers| && p.workers[w] == Idle && p.closed
    case Return => p.sender == Waiting && forall w :: 0 <= w < |p.workers| ==> p.workers[w] == Exited
  }

  predicate InRange(p: Pool) {
    && |p.calls| == |p.fates|
    && (p.sender.AtSelect? ==> p.sender.i < |p.fates|)
    && (p.sender.AtCheck? ==> p.sender.i <= |p.fates|)
    && (forall w :: 0 <= w < |p.workers| && (p.workers[w].Got? || p.workers[w].Running? || p.workers[w].Ran?) ==>
          p.workers[w].i < |p.fates|)
  }

  function Do(p: Pool, step: Step): Pool
    requires InRange(p) && Enabled(p, step)
  {
    match step
    case Cancel => p.(cancelled := true)
    case Check =>
      if p.sender.i == |p.fates| || p.cancelled then p.(sender := Closing) else p.(sender := AtSelect(p.sender.i))
    case Handoff(w) =>
      var i := p.sender.i;
      p.(sender := AtCheck(i + 1), workers := p.workers[w := Got(i)], fates := p.fates[i := Held(w)])
    case Skip =>
      var i := p.sender.i;
      p.(sender := AtCheck(i + 1), fates := p.fates[i := Skipped])
    case Close => p.(sender := Waiting, closed := true)
    case Look(w) =>
      var i := p.workers[w].i;
      if p.cancelled then p.(workers := p.workers[w := Exited], fates := p.fates[i := Dropped])
      else p.(workers := p.workers[w := Running(i)], calls := p.calls[i := p.calls[i] + 1])
    case Finish(w, ok) => p.(workers := p.workers[w := Ran(p.workers[w].i, ok)])
    case Record(w) =>
      var i, ok := p.workers[w].i, p.workers[w].ok;
      p.(workers := p.workers[w := Idle], fates := p.fates[i := Done(ok)],
         succeeded := if ok then p.succeeded + 1 else p.succeeded,
         firstErr := if !ok && p.firstErr == None then Some(i) else p.firstErr)
    case Leave(w) => p.(workers := p.workers[w := Exited])
    case Return => p.(sender := Returned)
  }

  /** What the pool returns. */
  function Result(p: Pool): Outcome {
    var n := |p.fates|;
    Outcome(n, p.succeeded, n - p.succeeded, n - p.succeeded == 0, p.firstErr != None || p.cancelled)
  }

  // ---- the invariant -------------------------------------------------------------------

  function Count(fates: seq<Fate>, fate: Fate): nat {
    if fates == [] then 0
    else Count(fates[..|fates| - 1], fate) + if fates[|fates| - 1] == fate then 1 else 0
  }

  /** How far the sender has come; nothing beyond has been touched. */
  function Offered(p: Pool): nat {
    if p.sender.AtCheck? || p.sender.AtSelect? then p.sender.i else |p.fates|
  }

  /** A worker has exactly the artifact whose fate names it. */
  predicate Holds(p: Pool, w: nat, i: nat)
    requires w < |p.workers|
  {
    (p.workers[w].Got? || p.workers[w].Running? || p.workers[w].Ran?) && p.workers[w].i == i
  }

  predicate CallsMatch(p: Pool, i: nat)
    requires i < |p.fates| == |p.calls|
  {
    match p.fates[i]
    case Done(_) => p.calls[i] == 1
    case Held(w) => w < |p.workers| && p.calls[i] == if p.workers[w].Got? then 0 else 1
    case _ => p.calls[i] == 0
  }

  ghost predicate Tokens(p: Pool) {
    forall w, i :: 0 <= w < |p.workers| && 0 <= i < |p.fates| ==> (Holds(p, w, i) <==> p.fates[i] == Held(w))
  }

  ghost predicate Calls(p: Pool)
    requires InRange(p)
  {
    forall i :: 0 <= i < |p.fates| ==> CallsMatch(p, i)
  }

  /** Without a cancellation everything offered is being handled, and no worker leaves early. */
  ghost predicate Flow(p: Pool) {
    && (forall i :: Offered(p) <= i < |p.fates| ==> p.fates[i] == Unsent)
    && (!p.cancelled ==> forall i :: 0 <= i < |p.fates| && i < Offered(p) ==> p.fates[i].Held? || p.fates[i].Done?)
    && (p.closed <==> p.sender == Waiting || p.sender == Returned)
    && (p.sender == Returned ==> forall w :: 0 <= w < |p.workers| ==> p.workers[w] == Exited)
    && (|p.workers| == 0 ==> |p.fates| == 0)
    && (!p.cancelled && !p.closed ==> forall w :: 0 <= w < |p.workers| ==> p.workers[w] != Exited)
  }

  ghost predicate Books(p: Pool) {
    && p.succeeded == Count(p.fates, Done(true))
    && (p.firstErr == None <==> forall i :: 0 <= i < |p.fates| ==> p.fates[i] != Done(false))
  }

  ghost predicate Inv(p: Pool) {
    InRange(p) && Tokens(p) && Calls(p) && Flow(p) && Books(p)
  }

  lemma {:induction false} CountUpdate(fates: seq<Fate>, i: nat, now: Fate, fate: Fate)
    requires i < |fates|
    ensures Count(fates[i := now], fate)
         == Count(fates, fate) - (if fates[i] == fate then 1 else 0) + (if now == fate then 1 else 0)
  {
    var m := |fates| - 1;
    if i < m {
      CountUpdate(fates[..m], i, now, fate);
      assert fates[i := now][..m] == fates[..m][i := now];
    } else {
      assert fates[i := now][..m] == fates[..m];
    }
  }

  lemma {:induction false} CountAll(fates: seq<Fate>, fate: Fate)
    ensures Count(fates, fate) <= |fates|
    ensures Count(fates, fate) == |fates| <==> forall i :: 0 <= i < |fates| ==> fates[i] == fate
  {
    if fates != [] { CountAll(fates[..|fates| - 1], fate); }
  }

  lemma {:induction false} CountNone(fates: seq<Fate>, fate: Fate)
    requires forall i :: 0 <= i < |fates| ==> fates[i] != fate
    ensures Count(fates, fate) == 0
  {
    if fates != [] { CountNone(fates[..|fates| - 1], fate); }
  }

  lemma StartInv(n: nat, concurrency: nat)
    requires concurrency > 0
    ensures Inv(Start(n, concurrency))
  {
    CountNone(Start(n, concurrency).fates, Done(true));
  }

  /** The artifact a step moves on, if it moves one. */
  function Moved(p: Pool, step: Step): (i: nat)
    requires InRange(p) && Enabled(p, step)
  {
    match step
    case Handoff(_) => p.sender.i
    case Skip => p.sender.i
    case Look(w) => p.workers[w].i
    case Finish(w, _) => p.workers[w].i
    case Record(w) => p.workers[w].i
    case _ => 0
  }

  lemma StepsStayInRange(p: Pool, step: Step)
    requires InRange(p) && Enabled(p, step)
    ensures InRange(Do(p, step)) && |Do(p, step).fates| == |p.fates| && |Do(p, step).workers| == |p.workers|
  {
  }

  lemma TokensKept(p: Pool, step: Step)
    requires InRange(p) && Tokens(p) && Flow(p) && Enabled(p, step)
    ensures Tokens(Do(p, step))
  {
    var q := Do(p, step);
    StepsStayInRange(p, step);
    forall w, i | 0 <= w < |q.workers| && 0 <= i < |q.fates|
      ensures Holds(q, w, i) <==> q.fates[i] == Held(w)
    {
      assert Holds(p, w, i) <==> p.fates[i] == Held(w);
      if step.Look? || step.Finish? || step.Record? { assert Holds(p, step.w, Moved(p, step)); }
    }
  }

  lemma CallsKept(p: Pool, step: Step)
    requires InRange(p) && Tokens(p) && Calls(p) && Flow(p) && Enabled(p, step)
    ensures InRange(Do(p, step)) && Calls(Do(p, step))
  {
    var q := Do(p, step);
    StepsStayInRange(p, step);
    forall i | 0 <= i < |q.fates|
      ensures CallsMatch(q, i)
    {
      assert CallsMatch(p, i);
      if p.fates[i].Held? { assert Holds(p, p.fates[i].worker, i); }
      if step.Look? || step.Finish? || step.Record? { assert Holds(p, step.w, Moved(p, step)); }
    }
  }

  lemma FlowKept(p: Pool, step: Step)
    requires InRange(p) && Tokens(p) && Flow(p) && Enabled(p, step)
    ensures Flow(Do(p, step))
  {
    if step.Look? || step.Finish? || step.Record? { assert Holds(p, step.w, Moved(p, step)); }
  }

  lemma BooksKept(p: Pool, step: Step)
    requires InRange(p) && Tokens(p) && Flow(p) && Books(p) && Enabled(p, step)
    ensures Books(Do(p, step))
  {
    var q := Do(p, step);
    var i := Moved(p, step);
    if step.Look? || step.Finish? || step.Record? { assert Holds(p, step.w, i); }
    if i < |p.fates| {
      CountUpdate(p.fates, i, q.fates[i], Done(true));
      assert q.fates == p.fates[i := q.fates[i]];
      if step.Record? && !step.Cancel? { assert q.fates[i] == Done(p.workers[step.w].ok); }
      forall k | 0 <= k < |p.fates| && k != i
        ensures q.fates[k] == p.fates[k]
      {
      }
    }
  }

  lemma DoKeepsInv(p: Pool, step: Step)
    requires Inv(p) && Enabled(p, step)
    ensures Inv(Do(p, step))
  {
    hide Do, Tokens, Calls, Flow, Books, InRange, Enabled;
    StepsStayInRange(p, step);
    TokensKept(p, step);
    CallsKept(p, step);
    FlowKept(p, step);
    BooksKept(p, step);
  }

  // ---- every run -----------------------------------------------------------------------

  /** Any schedule: a sequence of steps, each enabled when it happens. */
  predicate Runs(p: Pool, steps: seq<Step>, end: Pool)
    decreases |steps|
  {
    if steps == [] then end == p
    else InRange(p) && Enabled(p, steps[0]) && Runs(Do(p, steps[0]), steps[1..], end)
  }

  lemma {:induction false} RunKeepsInv(p: Pool, steps: seq<Step>, end: Pool)
    requires Inv(p) && Runs(p, steps, end)
    ensures Inv(end) && |end.fates| == |p.fates|
    decreases |steps|
  {
    if steps != [] {
      hide Inv, Do;
      DoKeepsInv(p, steps[0]);
      StepsStayInRange(p, steps[0]);
      RunKeepsInv(Do(p, steps[0]), steps[1..], end);
    }
  }

  /** Nothing is processed twice, and nothing is processed that no worker received. */
  lemma AtMostOnce(n: nat, concurrency: nat, steps: seq<Step>, p: Pool, i: nat)
    requires concurrency > 0 && Runs(Start(n, concurrency), steps, p) && i < n
    ensures |p.calls| == |p.fates| == n && p.calls[i] <= 1
    ensures p.calls[i] == 1 ==> p.fates[i].Held? || p.fates[i].Done?
  {
    StartInv(n, concurrency);
    RunKeepsInv(Start(n, concurrency), steps, p);
    assert CallsMatch(p, i);
  }

  lemma NoWorkerIsStuck(p: Pool, w: nat)
    requires w < |p.workers| && p.workers[w] != Exited && p.workers[w] != Idle
    ensures exists step :: step != Cancel && Enabled(p, step)
  {
    match p.workers[w]
    case Got(_) => assert Enabled(p, Look(w));
    case Running(_) => assert Enabled(p, Finish(w, true));
    case Ran(_, _) => assert Enabled(p, Record(w));
  }

  /** No schedule ends in a deadlock: until the pool returns, someone can move. */
  lemma NoDeadlock(n: nat, concurrency: nat, steps: seq<Step>, p: Pool)
    requires concurrency > 0 && Runs(Start(n, concurrency), steps, p) && p.sender != Returned
    ensures exists step :: step != Cancel && Enabled(p, step)
  {
    StartInv(n, concurrency);
    RunKeepsInv(Start(n, concurrency), steps, p);
    match p.sender
    case AtCheck(_) => assert Enabled(p, Check);
    case Closing => assert Enabled(p, Close);
    case AtSelect(_) =>
      if p.cancelled {
        assert Enabled(p, Skip);
      } else if p.workers[0] == Idle {
        assert Enabled(p, Handoff(0));
      } else {
        NoWorkerIsStuck(p, 0);
      }
    case Waiting =>
      if w :| 0 <= w < |p.workers| && p.workers[w] != Exited {
        if p.workers[w] == Idle { assert Enabled(p, Leave(w)); } else { NoWorkerIsStuck(p, w); }
      } else {
        assert Enabled(p, Return);
      }
    case Returned =>
  }

  // ---- every run ends ------------------------------------------------------------------

  function SenderWork(p: Pool): int {
    match p.sender
    case AtCheck(i) => 10 * (|p.fates| - i) + 9
    case AtSelect(i) => 10 * (|p.fates| - i) + 8
    case Closing => 8
    case Waiting => 7
    case Returned => 6
  }

  function WorkerWork(w: Worker): nat {
    match w
    case Idle => 1
    case Got(_) => 4
    case Running(_) => 3
    case Ran(_, _) => 2
    case Exited => 0
  }

  function AllWork(workers: seq<Worker>): nat {
    if workers == [] then 0 else AllWork(workers[..|workers| - 1]) + WorkerWork(workers[|workers| - 1])
  }

  function Measure(p: Pool): int { SenderWork(p) + AllWork(p.workers) }

  lemma {:induction false} WorkUpdate(workers: seq<Worker>, w: nat, now: Worker)
    requires w < |workers|
    ensures AllWork(workers[w := now]) == AllWork(workers) - WorkerWork(workers[w]) + WorkerWork(now)
  {
    var m := |workers| - 1;
    if w < m {
      WorkUpdate(workers[..m], w, now);
      assert workers[w := now][..m] == workers[..m][w := now];
    } else {
      assert workers[w := now][..m] == workers[..m];
    }
  }

  predicate OfWorker(step: Step) {
    step.Look? || step.Finish? || step.Record? || step.Leave?
  }

  /** The sender's part goes down at each of its steps; a handoff pays for the artifact's work. */
  lemma SenderGoesDown(p: Pool, step: Step)
    requires InRange(p) && Enabled(p, step)
    ensures SenderWork(Do(p, step)) >= 0
    ensures SenderWork(Do(p, step)) + (if step.Handoff? then 4 else if OfWorker(step) || step.Cancel? then 0 else 1)
         <= SenderWork(p)
  {
    StepsStayInRange(p, step);
  }

  lemma WorkersGoDown(p: Pool, step: Step)
    requires InRange(p) && Enabled(p, step)
    ensures AllWork(Do(p, step).workers) + (if OfWorker(step) then 1 else 0)
         <= AllWork(p.workers) + if step.Handoff? then 3 else 0
  {
    hide InRange, AllWork;
    match step
    case Handoff(w) => WorkUpdate(p.workers, w, Got(p.sender.i));
    case Look(w) => WorkUpdate(p.workers, w, if p.cancelled then Exited else Running(p.workers[w].i));
    case Finish(w, ok) => WorkUpdate(p.workers, w, Ran(p.workers[w].i, ok));
    case Record(w) => WorkUpdate(p.workers, w, Idle);
    case Leave(w) => WorkUpdate(p.workers, w, Exited);
    case _ =>
  }

  /** Each step but a cancellation leaves strictly less to do. */
  lemma StepsGoDown(p: Pool, step: Step)
    requires InRange(p) && Enabled(p, step)
    ensures InRange(Do(p, step)) && 0 <= Measure(Do(p, step)) <= Measure(p)
    ensures step != Cancel ==> Measure(Do(p, step)) < Measure(p)
  {
    hide InRange, Enabled, Do, SenderWork, AllWork;
    StepsStayInRange(p, step);
    SenderGoesDown(p, step);
    WorkersGoDown(p, step);
  }

  function Moves(steps: seq<Step>): nat {
    if steps == [] then 0 else (if steps[0].Cancel? then 0 else 1) + Moves(steps[1..])
  }

  lemma {:induction false} RunIsBounded(p: Pool, steps: seq<Step>, end: Pool)
    requires InRange(p) && Runs(p, steps, end) && 0 <= Measure(p)
    ensures InRange(end) && 0 <= Measure(end) <= Measure(p) - Moves(steps)
    decreases |steps|
  {
    if steps != [] {
      hide Do, Measure;
      StepsGoDown(p, steps[0]);
      RunIsBounded(Do(p, steps[0]), steps[1..], end);
    }
  }

  lemma {:induction false} IdleWork(workers: seq<Worker>)
    requires forall w :: 0 <= w < |workers| ==> workers[w] == Idle
    ensures AllWork(workers) == |workers|
  {
    if workers != [] { IdleWork(workers[..|workers| - 1]); }
  }

  /** A schedule has at most eleven moves an artifact, and nine more: with no deadlock, every run returns. */
  lemma EveryRunEnds(n: nat, concurrency: nat, steps: seq<Step>, p: Pool)
    requires concurrency > 0 && Runs(Start(n, concurrency), steps, p)
    ensures Moves(steps) <= 11 * n + 9
  {
    StartInv(n, concurrency);
    IdleWork(Start(n, concurrency).workers);
    RunIsBounded(Start(n, concurrency), steps, p);
  }

  // ---- the result ----------------------------------------------------------------------

  /**
    On return every artifact is counted once, as succeeded or failed, and the error is
    nil exactly when all succeeded and the context was not cancelled.
   */
  lemma ResultIsExact(n: nat, concurrency: nat, steps: seq<Step>, p: Pool)
    requires concurrency > 0 && Runs(Start(n, concurrency), steps, p) && p.sender == Returned
    ensures
      var r := Result(p);
      && r.attempted == n && r.succeeded + r.failed == n && r.failed >= 0
      && r.succeeded == Count(p.fates, Done(true))
      && (r.complete <==> forall i :: 0 <= i < n ==> p.fates[i] == Done(true))
      && (!r.failure <==> r.complete && !p.cancelled)
    ensures |p.calls| == n && (!Result(p).failure ==> forall i :: 0 <= i < n ==> p.calls[i] == 1)
  {
    StartInv(n, concurrency);
    RunKeepsInv(Start(n, concurrency), steps, p);
    CountAll(p.fates, Done(true));
    forall i | 0 <= i < n
      ensures !p.fates[i].Held?
    {
      assert CallsMatch(p, i);
      assert p.fates[i].Held? ==> Holds(p, p.fates[i].worker, i);
    }
    if !Result(p).failure {
      forall i | 0 <= i < n
        ensures p.fates[i] == Done(true) && p.calls[i] == 1
      {
        assert CallsMatch(p, i);
      }
    }
  }

  // ---- no more at once than asked for ----------------------------------------------------

  lemma {:induction false} RunKeepsWorkers(p: Pool, steps: seq<Step>, end: Pool)
    requires InRange(p) && Runs(p, steps, end)
    ensures |end.workers| == |p.workers|
    decreases |steps|
  {
    if steps != [] {
      hide Do;
      StepsStayInRange(p, steps[0]);
      RunKeepsWorkers(Do(p, steps[0]), steps[1..], end);
    }
  }

  /** Whatever the schedule, there are as many workers as asked for, or as many as artifacts if those are fewer. */
  lemma AtMostConcurrency(n: nat, concurrency: nat, steps: seq<Step>, p: Pool)
    requires concurrency > 0 && Runs(Start(n, concurrency), steps, p)
    ensures |p.workers| <= concurrency && |p.workers| <= n && (|p.workers| == concurrency || |p.workers| == n)
  {
    StartInv(n, concurrency);
    RunKeepsWorkers(Start(n, concurrency), steps, p);
  }

  // ---- the first error ---------------------------------------------------------------------

  /** The recorded error is that of an artifact that failed. */
  predicate ErrorIsReal(p: Pool) {
    p.firstErr.Some? ==> p.firstErr.value < |p.fates| && p.fates[p.firstErr.value] == Done(false)
  }

  /** A step moves an artifact on only while it is not done. */
  lemma MovedIsNotDone(p: Pool, step: Step)
    requires Inv(p) && Enabled(p, step) && (step.Handoff? || step.Skip? || step.Look? || step.Record?)
    ensures Moved(p, step) < |p.fates| && !p.fates[Moved(p, step)].Done?
  {
    if step.Look? || step.Record? { assert Holds(p, step.w, Moved(p, step)); }
    hide Calls, Books;
  }

  lemma DoKeepsError(p: Pool, step: Step)
    requires Inv(p) && Enabled(p, step) && ErrorIsReal(p)
    ensures ErrorIsReal(Do(p, step))
    ensures p.firstErr.Some? ==> Do(p, step).firstErr == p.firstErr
    ensures step.Record? && p.firstErr.None? && !p.workers[step.w].ok ==> Do(p, step).firstErr == Some(p.workers[step.w].i)
  {
    if step.Handoff? || step.Skip? || step.Look? || step.Record? { MovedIsNotDone(p, step); }
    hide Inv, Calls, Flow, Books, Tokens;
  }

  /** The error that is kept is the one recorded first, and it belongs to a failed artifact. */
  lemma {:induction false} FirstErrorIsKept(p: Pool, steps: seq<Step>, end: Pool)
    requires Inv(p) && ErrorIsReal(p) && Runs(p, steps, end)
    ensures ErrorIsReal(end) && (p.firstErr.Some? ==> end.firstErr == p.firstErr)
    decreases |steps|
  {
    if steps != [] {
      hide Inv, Do, ErrorIsReal;
      DoKeepsInv(p, steps[0]);
      DoKeepsError(p, steps[0]);
      FirstErrorIsKept(Do(p, steps[0]), steps[1..], end);
    }
  }
  lemma RunsOn(p: Pool, step: Step, rest: seq<Step>, end: Pool)
    requires InRange(p) && Enabled(p, step) && Runs(Do(p, step), rest, end)
    ensures Runs(p, [step] + rest, end)
  {
    assert ([step] + rest)[0] == step && ([step] + rest)[1..] == rest;
  }

  const DOING: seq<Step> := [Check, Handoff(0), Look(0), Finish(0, true), Record(0)]
  const LEAVING: seq<Step> := [Check, Close, Leave(0), Cancel, Return]
  const ALL_DONE: Pool := Pool(AtCheck(1), false, false, [Idle], 1, None, [Done(true)], [1])
  const LATE_END: Pool := Pool(Returned, true, true, [Exited], 1, None, [Done(true)], [1])

  const CLOSING: Pool := ALL_DONE.(sender := Closing)
  const CLOSED: Pool := CLOSING.(sender := Waiting, closed := true)
  const LEFT: Pool := CLOSED.(workers := [Exited])
  const CANCELLED: Pool := LEFT.(cancelled := true)

  lemma LeavingSteps()
    ensures InRange(ALL_DONE) && Enabled(ALL_DONE, Check) && Do(ALL_DONE, Check) == CLOSING
    ensures InRange(CLOSING) && Enabled(CLOSING, Close) && Do(CLOSING, Close) == CLOSED
    ensures InRange(CLOSED) && Enabled(CLOSED, Leave(0)) && Do(CLOSED, Leave(0)) == LEFT
    ensures InRange(LEFT) && Enabled(LEFT, Cancel) && Do(LEFT, Cancel) == CANCELLED
    ensures InRange(CANCELLED) && Enabled(CANCELLED, Return) && Do(CANCELLED, Return) == LATE_END
  {
    assert [Idle][0 := Exited] == [Exited];
  }

  lemma LeavingRuns()
    ensures Runs(ALL_DONE, LEAVING, LATE_END)
  {
    assert Runs(LATE_END, [], LATE_END);
    LeavingSteps();
    hide *;
    RunsOn(CANCELLED, Return, [], LATE_END);
    RunsOn(LEFT, Cancel, [Return] + [], LATE_END);
    RunsOn(CLOSED, Leave(0), [Cancel] + ([Return] + []), LATE_END);
    RunsOn(CLOSING, Close, [Leave(0)] + ([Cancel] + ([Return] + [])), LATE_END);
    RunsOn(ALL_DONE, Check, [Close] + ([Leave(0)] + ([Cancel] + ([Return] + []))), LATE_END);
    LeavingOrder();
  }

  lemma LeavingOrder()
    ensures LEAVING == [Check] + ([Close] + ([Leave(0)] + ([Cancel] + ([Return] + []))))
  {
  }

  const OFFERED: Pool := Pool(AtSelect(0), false, false, [Idle], 0, None, [Unsent], [0])
  const TAKEN: Pool := Pool(AtCheck(1), false, false, [Got(0)], 0, None, [Held(0)], [0])
  const WORKING: Pool := Pool(AtCheck(1), false, false, [Running(0)], 0, None, [Held(0)], [1])
  const WORKED: Pool := Pool(AtCheck(1), false, false, [Ran(0, true)], 0, None, [Held(0)], [1])

  lemma DoingSteps()
    ensures InRange(Start(1, 1)) && Enabled(Start(1, 1), Check) && Do(Start(1, 1), Check) == OFFERED
    ensures InRange(OFFERED) && Enabled(OFFERED, Handoff(0)) && Do(OFFERED, Handoff(0)) == TAKEN
    ensures InRange(TAKEN) && Enabled(TAKEN, Look(0)) && Do(TAKEN, Look(0)) == WORKING
    ensures InRange(WORKING) && Enabled(WORKING, Finish(0, true)) && Do(WORKING, Finish(0, true)) == WORKED
    ensures InRange(WORKED) && Enabled(WORKED, Record(0)) && Do(WORKED, Record(0)) == ALL_DONE
  {
    assert Start(1, 1) == Pool(AtCheck(0), false, false, [Idle], 0, None, [Unsent], [0]);
    assert [Idle][0 := Got(0)] == [Got(0)] && [Unsent][0 := Held(0)] == [Held(0)] && [0][0 := 1] == [1];
    assert [Got(0)][0 := Running(0)] == [Running(0)] && [Running(0)][0 := Ran(0, true)] == [Ran(0, true)];
    assert [Ran(0, true)][0 := Idle] == [Idle] && [Held(0)][0 := Done(true)] == [Done(true)];
  }

  lemma DoingRuns(rest: seq<Step>)
    requires Runs(ALL_DONE, rest, LATE_END)
    ensures Runs(Start(1, 1), DOING + rest, LATE_END)
  {
    DoingSteps();
    hide *;
    RunsOn(WORKED, Record(0), rest, LATE_END);
    RunsOn(WORKING, Finish(0, true), [Record(0)] + rest, LATE_END);
    RunsOn(TAKEN, Look(0), [Finish(0, true)] + ([Record(0)] + rest), LATE_END);
    RunsOn(OFFERED, Handoff(0), [Look(0)] + ([Finish(0, true)] + ([Record(0)] + rest)), LATE_END);
    RunsOn(Start(1, 1), Check, [Handoff(0)] + ([Look(0)] + ([Finish(0, true)] + ([Record(0)] + rest))), LATE_END);
    DoingOrder(rest);
  }

  lemma DoingOrder(rest: seq<Step>)
    ensures DOING + rest == [Check] + ([Handoff(0)] + ([Look(0)] + ([Finish(0, true)] + ([Record(0)] + rest))))
  {
  }

  /** A schedule in which every artifact succeeds and the pool still returns an error. */
  lemma LateCancelFails()
    ensures Runs(Start(1, 1), DOING + LEAVING, LATE_END) && LATE_END.sender == Returned
    ensures Result(LATE_END).complete && Result(LATE_END).failure
  {
    LeavingRuns();
    DoingRuns(LEAVING);
    hide Runs;
  }
}
