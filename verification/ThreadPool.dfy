/**
 The worker pool: one task deque, lazily woken workers that spin before they sleep, a wake-up policy
 that notifies on empty plus once per backlog task and idle worker, and a stop that drains.
 */
module ThreadPool {

  /** What the pool's mutex protects.  Tasks are numbered in the order the pool took them in. */
  datatype PoolVars = PoolVars(deque: seq<nat>, pending: int, idle: int, running: bool, stopping: bool)

  /** How many `notify_one` calls a `Submit` still owes after it left the lock. */
  function Notifies(queuedBefore: nat, idle: int): nat {
    (if queuedBefore == 0 then 1 else 0)
    + if queuedBefore >= 1 && idle > 0 then (if queuedBefore > idle then idle else queuedBefore) else 0
  }

  function SubmitVars(v: PoolVars, task: nat): PoolVars {
    v.(deque := v.deque + [task], pending := v.pending + 1)
  }

  datatype Outcome = GoSpin | GoSleep | GoExit | GoRun(task: nat)

  /** One look of a worker at the deque, under the lock; `wasIdle` says whether it is counted idle. */
  function Look(v: PoolVars, wasIdle: bool): (PoolVars, Outcome) {
    if v.deque == [] && !v.stopping then
      if wasIdle then (v, GoSleep) else (v.(idle := v.idle + 1), GoSpin)
    else
      var v1 := if wasIdle then v.(idle := v.idle - 1) else v;
      if v.deque == [] then (v1, GoExit)
      else (v1.(deque := v.deque[1..], pending := v.pending - 1), GoRun(v.deque[0]))
  }

  /** The pool object's locked sections. */
  class CThreadPool {
    const threadCount: nat
    var deque: seq<nat>
    var pending: int
    var idleWorkers: int
    var running: bool
    var stopping: bool

    constructor (threadCount: nat)
      ensures this.threadCount == threadCount && Vars() == PoolVars([], 0, 0, false, false)
    {
      this.threadCount := threadCount;
      deque, pending, idleWorkers, running, stopping := [], 0, 0, false, false;
    }

    function Vars(): PoolVars
      reads this
    {
      PoolVars(deque, pending, idleWorkers, running, stopping)
    }

    method Start() returns (ok: bool)
      modifies this
      ensures ok <==> !old(running) && threadCount > 0
      ensures Vars() == if ok then old(Vars()).(running := true, stopping := false, idle := 0) else old(Vars())
    {
      if running {
        return false;
      }
      if threadCount == 0 {
        return false;
      }
      running := true;
      stopping := false;
      idleWorkers := 0;
      ok := true;
    }

    method Submit(task: nat) returns (accepted: bool, notifies: nat)
      modifies this
      ensures accepted <==> old(running) && !old(stopping)
      ensures accepted ==> Vars() == SubmitVars(old(Vars()), task) && notifies == Notifies(|old(deque)|, idleWorkers)
      ensures !accepted ==> Vars() == old(Vars()) && notifies == 0
    {
      if !running || stopping {
        return false, 0;
      }
      var needNotify := deque == [];
      deque := deque + [task];
      pending := pending + 1;
      var queued := |deque|;
      var extra := 0;
      if queued > 1 {
        var backlog := queued - 1;
        extra := if backlog > idleWorkers then idleWorkers else backlog;
      }
      // A loop up to a negative bound would make no call.
      return true, (if needNotify then 1 else 0) + if extra > 0 then extra else 0;
    }

    /** The worker's locked section before it spins, after it spun, and after each wake-up. */
    method WorkerLook(wasIdle: bool) returns (o: Outcome)
      modifies this
      ensures (Vars(), o) == Look(old(Vars()), wasIdle)
    {
      if deque == [] && !stopping {
        if !wasIdle {
          idleWorkers := idleWorkers + 1;
          return GoSpin;
        }
        return GoSleep;
      }
      if stopping && deque == [] {
        if wasIdle {
          idleWorkers := idleWorkers - 1;
        }
        return GoExit;
      }
      o := GoRun(deque[0]);
      deque := deque[1..];
      pending := pending - 1;
      if wasIdle {
        idleWorkers := idleWorkers - 1;
      }
    }

    /** The locked part of `Stop`; false means there is nothing to stop. */
    method StopLocked() returns (proceed: bool)
      modifies this`stopping
      ensures proceed <==> old(running)
      ensures stopping == (old(stopping) || old(running))
    {
      if !running {
        return false;
      }
      stopping := true;
      proceed := true;
    }
  }

  // ---- the pool as a transition system ----

  datatype Worker =
    | Top              // about to look at the deque, not counted idle
    | Spinning         // counted idle, lock released, will look again
    | Asleep           // in the condition variable
    | Woken            // notified, will look again
    | Busy(task: nat)
    | Finished         // left the loop

  datatype StopAt = NotStopping | OwesNotifyAll | Joining

  /** `taken` counts started tasks; `owed` is the number of `notify_one` calls still to be made. */
  datatype State = State(
    count: nat,
    v: PoolVars,
    workers: seq<Worker>,
    owed: nat,
    stop: StopAt,
    taken: nat,
    done: set<nat>
  )

  datatype Step =
    | StartPool
    | SubmitTask
    | NotifyOne(w: nat)   // wakes sleeper w, or nobody when nobody sleeps
    | Spurious(w: nat)
    | LookAt(w: nat)
    | Finish(w: nat)      // the running task ends
    | StopBegin
    | NotifyAll
    | Joined

  function Accepted(s: State): nat {
    s.taken + |s.v.deque|
  }

  ghost predicate Init(s: State) {
    && s.v == PoolVars([], 0, 0, false, false) && s.workers == [] && s.owed == 0
    && s.stop == NotStopping && s.taken == 0 && s.done == {}
  }

  predicate Is(s: State, w: nat, pc: Worker) {
    w < |s.workers| && s.workers[w] == pc
  }

  predicate Looks(s: State, w: nat) {
    w < |s.workers| && (s.workers[w].Top? || s.workers[w].Spinning? || s.workers[w].Woken?)
  }

  predicate Enabled(s: State, step: Step) {
    match step
    case StartPool => !s.v.running && s.count > 0
    case SubmitTask => s.v.running && !s.v.stopping
    case NotifyOne(w) => s.owed > 0 && (Is(s, w, Asleep) || forall u | 0 <= u < |s.workers| :: !s.workers[u].Asleep?)
    case Spurious(w) => Is(s, w, Asleep)
    case LookAt(w) => Looks(s, w)
    case Finish(w) => w < |s.workers| && s.workers[w].Busy?
    case StopBegin => s.v.running && s.stop == NotStopping
    case NotifyAll => s.stop == OwesNotifyAll
    case Joined => s.stop == Joining && forall u | 0 <= u < |s.workers| :: s.workers[u].Finished?
  }

  function AfterLook(o: Outcome): Worker {
    match o
    case GoSpin => Spinning
    case GoSleep => Asleep
    case GoExit => Finished
    case GoRun(task) => Busy(task)
  }

  function WakeAll(ws: seq<Worker>): (r: seq<Worker>)
    ensures |r| == |ws| && forall u | 0 <= u < |ws| :: r[u] == if ws[u].Asleep? then Woken else ws[u]
  {
    if ws == [] then [] else WakeAll(ws[..|ws| - 1]) + [if ws[|ws| - 1].Asleep? then Woken else ws[|ws| - 1]]
  }

  function Apply(s: State, step: Step): State
    requires Enabled(s, step)
  {
    match step
    case StartPool =>
      s.(v := s.v.(running := true, stopping := false, idle := 0), workers := seq(s.count, _ => Top))
    case SubmitTask =>
      s.(v := SubmitVars(s.v, Accepted(s)), owed := s.owed + Notifies(|s.v.deque|, s.v.idle))
    case NotifyOne(w) =>
      if Is(s, w, Asleep) then s.(workers := s.workers[w := Woken], owed := s.owed - 1) else s.(owed := s.owed - 1)
    case Spurious(w) => s.(workers := s.workers[w := Woken])
    case LookAt(w) =>
      var (v, o) := Look(s.v, !s.workers[w].Top?);
      s.(v := v, workers := s.workers[w := AfterLook(o)], taken := if o.GoRun? then s.taken + 1 else s.taken)
    case Finish(w) => s.(workers := s.workers[w := Top], done := s.done + {s.workers[w].task})
    case StopBegin => s.(v := s.v.(stopping := true), stop := OwesNotifyAll)
    case NotifyAll => s.(workers := WakeAll(s.workers), stop := Joining)
    case Joined => s.(v := s.v.(running := false, stopping := false), workers := [], stop := NotStopping)
  }

  // ---- counting workers ----

  function Total(ws: seq<Worker>, weight: Worker -> nat): nat {
    if ws == [] then 0 else Total(ws[..|ws| - 1], weight) + weight(ws[|ws| - 1])
  }

  /** Counted by `m_nIdleWorkers`: from the start of the spin until the worker takes a task or leaves. */
  function IdleOne(w: Worker): nat {
    if w.Spinning? || w.Asleep? || w.Woken? then 1 else 0
  }

  /** Will look at the deque without being notified. */
  function AwakeOne(w: Worker): nat {
    if w.Top? || w.Spinning? || w.Woken? then 1 else 0
  }

  /** Steps a stopping worker still has to make, apart from the tasks in the deque. */
  function StopWork(w: Worker): nat {
    if w.Busy? then 2 else if w.Finished? then 0 else 1
  }

  lemma {:induction false} TotalUpdate(ws: seq<Worker>, w: nat, x: Worker, weight: Worker -> nat)
    requires w < |ws|
    ensures Total(ws[w := x], weight) == Total(ws, weight) - weight(ws[w]) + weight(x)
    decreases |ws|
  {
    var last := |ws| - 1;
    if w == last {
      assert ws[w := x][..last] == ws[..last];
    } else {
      assert ws[w := x][..last] == ws[..last][w := x];
      TotalUpdate(ws[..last], w, x, weight);
    }
  }

  lemma {:induction false} TotalAtLeast(ws: seq<Worker>, w: nat, weight: Worker -> nat)
    requires w < |ws|
    ensures Total(ws, weight) >= weight(ws[w])
    decreases |ws|
  {
    if w < |ws| - 1 {
      TotalAtLeast(ws[..|ws| - 1], w, weight);
    }
  }

  lemma {:induction false} TotalZero(ws: seq<Worker>, weight: Worker -> nat)
    requires forall u | 0 <= u < |ws| :: weight(ws[u]) == 0
    ensures Total(ws, weight) == 0
    decreases |ws|
  {
    if ws != [] {
      TotalZero(ws[..|ws| - 1], weight);
    }
  }

  lemma {:induction false} TotalSame(a: seq<Worker>, b: seq<Worker>, weight: Worker -> nat)
    requires |a| == |b| && forall u | 0 <= u < |a| :: weight(a[u]) == weight(b[u])
    ensures Total(a, weight) == Total(b, weight)
    decreases |a|
  {
    if a != [] {
      TotalSame(a[..|a| - 1], b[..|b| - 1], weight);
    }
  }

  // ---- the invariant ----

  ghost predicate SomeSleeper(s: State) {
    exists u | 0 <= u < |s.workers| :: s.workers[u].Asleep?
  }

  ghost predicate CountersOk(s: State) {
    && s.v.pending == |s.v.deque|
    && s.v.idle == Total(s.workers, IdleOne)
    && (forall j | 0 <= j < |s.v.deque| :: s.v.deque[j] == s.taken + j)
  }

  /** While anybody sleeps, each waiting task is covered by an awake worker or a pending notification. */
  ghost predicate Covered(s: State) {
    SomeSleeper(s) ==> |s.v.deque| <= s.owed + Total(s.workers, AwakeOne)
  }

  ghost predicate ModeOk(s: State) {
    && (s.v.stopping <==> s.stop != NotStopping)
    && (s.v.stopping ==> s.v.running)
    && (!s.v.running ==> s.workers == [] && s.v.deque == [])
    && (s.v.running ==> |s.workers| == s.count > 0)
    && ((exists u | 0 <= u < |s.workers| :: s.workers[u].Finished?) ==> s.v.stopping && s.v.deque == [])
    && (s.stop == Joining ==> !SomeSleeper(s))
  }

  /** Every started task is finished or running on exactly one worker, never both. */
  ghost predicate TasksOk(s: State) {
    && (forall u | 0 <= u < |s.workers| && s.workers[u].Busy? ::
          s.workers[u].task < s.taken && s.workers[u].task !in s.done)
    && (forall u, w | 0 <= u < w < |s.workers| && s.workers[u].Busy? && s.workers[w].Busy? ::
          s.workers[u].task != s.workers[w].task)
    && (forall k: nat | k < s.taken && k !in s.done :: exists u | 0 <= u < |s.workers| :: s.workers[u] == Busy(k))
    && (forall k | k in s.done :: k < s.taken)
  }

  ghost predicate Inv(s: State) {
    CountersOk(s) && Covered(s) && ModeOk(s) && TasksOk(s)
  }

  lemma LookCounters(s: State, w: nat)
    requires CountersOk(s) && Enabled(s, LookAt(w))
    ensures CountersOk(Apply(s, LookAt(w)))
  {
    TotalUpdate(s.workers, w, Apply(s, LookAt(w)).workers[w], IdleOne);
    TotalAtLeast(s.workers, w, IdleOne);
  }

  lemma StepCounters(s: State, step: Step)
    requires CountersOk(s) && ModeOk(s) && Enabled(s, step)
    ensures CountersOk(Apply(s, step))
  {
    var s' := Apply(s, step);
    match step
    case NotifyOne(w) => if Is(s, w, Asleep) { TotalUpdate(s.workers, w, Woken, IdleOne); }
    case Spurious(w) => TotalUpdate(s.workers, w, Woken, IdleOne);
    case LookAt(w) => LookCounters(s, w);
    case Finish(w) => TotalUpdate(s.workers, w, Top, IdleOne);
    case NotifyAll => TotalSame(s.workers, s'.workers, IdleOne);
    case StartPool => TotalZero(s'.workers, IdleOne);
    case Joined => TotalZero(s.workers, IdleOne);
    case _ =>
  }

  // The wake-up policy is enough: the next four lemmas are the heart of "no lost wake-up".

  /** Waking one sleeper moves one unit of cover from the notification to the worker. */
  lemma WakeCovered(s: State, step: Step)
    requires Covered(s) && Enabled(s, step) && (step.NotifyOne? || step.Spurious?)
    ensures Covered(Apply(s, step))
  {
    var s' := Apply(s, step);
    if Is(s, step.w, Asleep) {
      TotalUpdate(s.workers, step.w, Woken, AwakeOne);
      assert SomeSleeper(s);
    }
  }

  /** A submission owes at least one notification whenever anybody sleeps: sleepers are counted idle. */
  lemma SubmitCovered(s: State)
    requires CountersOk(s) && Covered(s) && Enabled(s, SubmitTask)
    ensures Covered(Apply(s, SubmitTask))
  {
    if SomeSleeper(s) {
      var u :| 0 <= u < |s.workers| && s.workers[u].Asleep?;
      TotalAtLeast(s.workers, u, IdleOne);
    }
  }

  /** A worker falls asleep only in front of an empty deque. */
  lemma LookCovered(s: State, w: nat)
    requires Covered(s) && Enabled(s, LookAt(w))
    ensures Covered(Apply(s, LookAt(w)))
  {
    var s' := Apply(s, LookAt(w));
    TotalUpdate(s.workers, w, s'.workers[w], AwakeOne);
    if SomeSleeper(s') && s.v.deque != [] {
      var u :| 0 <= u < |s'.workers| && s'.workers[u].Asleep?;
      assert s.workers[u].Asleep?;
    }
  }

  lemma FinishCovered(s: State, w: nat)
    requires Covered(s) && Enabled(s, Finish(w))
    ensures Covered(Apply(s, Finish(w)))
  {
    var s' := Apply(s, Finish(w));
    TotalUpdate(s.workers, w, Top, AwakeOne);
    if SomeSleeper(s') {
      var u :| 0 <= u < |s'.workers| && s'.workers[u].Asleep?;
      assert s.workers[u].Asleep?;
    }
  }

  lemma StepCovered(s: State, step: Step)
    requires Inv(s) && Enabled(s, step)
    ensures Covered(Apply(s, step))
  {
    if step.NotifyOne? || step.Spurious? {
      WakeCovered(s, step);
    } else if step.SubmitTask? {
      SubmitCovered(s);
    } else if step.LookAt? {
      LookCovered(s, step.w);
    } else if step.Finish? {
      FinishCovered(s, step.w);
    } else if step.NotifyAll? {
      assert !SomeSleeper(Apply(s, step));
    } else if step.StartPool? || step.Joined? {
      assert !SomeSleeper(Apply(s, step));
    } else {
      assert Apply(s, step).workers == s.workers;
    }
  }

  lemma StepMode(s: State, step: Step)
    requires Inv(s) && Enabled(s, step)
    ensures ModeOk(Apply(s, step))
  {
    var s' := Apply(s, step);
    if step.LookAt? {
      LookMode(s, step.w);
    } else if step.Joined? {
      JoinedEmpty(s);
    }
  }

  lemma LookMode(s: State, w: nat)
    requires ModeOk(s) && Enabled(s, LookAt(w))
    ensures ModeOk(Apply(s, LookAt(w)))
  {
    var s' := Apply(s, LookAt(w));
    assert forall u | 0 <= u < |s'.workers| && u != w :: s'.workers[u] == s.workers[u];
  }

  lemma JoinedEmpty(s: State)
    requires ModeOk(s) && Enabled(s, Joined)
    ensures s.v.deque == []
  {
    assert s.workers[0].Finished?;
  }

  lemma StepTasks(s: State, step: Step)
    requires Inv(s) && Enabled(s, step)
    ensures TasksOk(Apply(s, step))
  {
    var s' := Apply(s, step);
    if step.LookAt? {
      LookTasks(s, step.w);
    } else if step.Finish? {
      FinishTasks(s, step.w);
    } else if step.StartPool? || step.Joined? {
      if step.Joined? {
        JoinedEmpty(s);
      }
    } else if step.SubmitTask? || step.StopBegin? {
    } else {
      SleepTasks(s, s');
    }
  }

  /** Waking and sleeping moves no task. */
  lemma SleepTasks(s: State, s': State)
    requires TasksOk(s) && |s'.workers| == |s.workers| && s'.taken == s.taken && s'.done == s.done
    requires forall u | 0 <= u < |s.workers| ::
          s'.workers[u] == s.workers[u] || (!s.workers[u].Busy? && !s'.workers[u].Busy?)
    ensures TasksOk(s')
  {
    forall k: nat | k < s'.taken && k !in s'.done
      ensures exists u | 0 <= u < |s'.workers| :: s'.workers[u] == Busy(k)
    {
      var u :| 0 <= u < |s.workers| && s.workers[u] == Busy(k);
      assert s'.workers[u] == Busy(k);
    }
  }

  lemma LookTasks(s: State, w: nat)
    requires CountersOk(s) && TasksOk(s) && Enabled(s, LookAt(w))
    ensures TasksOk(Apply(s, LookAt(w)))
  {
    var s' := Apply(s, LookAt(w));
    forall k: nat | k < s'.taken && k !in s'.done
      ensures exists u | 0 <= u < |s'.workers| :: s'.workers[u] == Busy(k)
    {
      if k < s.taken {
        var u :| 0 <= u < |s.workers| && s.workers[u] == Busy(k);
        assert s'.workers[u] == Busy(k);
      } else {
        assert s'.workers[w] == Busy(k);
      }
    }
  }

  lemma FinishTasks(s: State, w: nat)
    requires TasksOk(s) && Enabled(s, Finish(w))
    ensures TasksOk(Apply(s, Finish(w)))
  {
    var s' := Apply(s, Finish(w));
    forall k: nat | k < s'.taken && k !in s'.done
      ensures exists u | 0 <= u < |s'.workers| :: s'.workers[u] == Busy(k)
    {
      var u :| 0 <= u < |s.workers| && s.workers[u] == Busy(k);
      assert s'.workers[u] == Busy(k);
    }
  }

  lemma StepInv(s: State, step: Step)
    requires Inv(s) && Enabled(s, step)
    ensures Inv(Apply(s, step))
  {
    StepCounters(s, step);
    StepCovered(s, step);
    StepMode(s, step);
    StepTasks(s, step);
  }

  // ---- runs ----

  predicate Valid(s: State, steps: seq<Step>)
    decreases |steps|
  {
    steps == [] || (Enabled(s, steps[0]) && Valid(Apply(s, steps[0]), steps[1..]))
  }

  function After(s: State, steps: seq<Step>): State
    requires Valid(s, steps)
    decreases |steps|
  {
    if steps == [] then s else After(Apply(s, steps[0]), steps[1..])
  }

  lemma {:induction false} RunKeepsInv(s: State, steps: seq<Step>)
    requires Inv(s) && Valid(s, steps)
    ensures Inv(After(s, steps))
    decreases |steps|
  {
    if steps != [] {
      StepInv(s, steps[0]);
      RunKeepsInv(Apply(s, steps[0]), steps[1..]);
    }
  }

  lemma ReachableInv(s: State, steps: seq<Step>)
    requires Init(s) && Valid(s, steps)
    ensures Inv(After(s, steps))
  {
    RunKeepsInv(s, steps);
  }

  /** With the mutex free, the atomic counter is the deque's length and the idle count is exact. */
  lemma CountersExact(s: State, steps: seq<Step>)
    requires Init(s) && Valid(s, steps)
    ensures After(s, steps).v.pending == |After(s, steps).v.deque|
    ensures After(s, steps).v.idle == Total(After(s, steps).workers, IdleOne)
  {
    ReachableInv(s, steps);
  }

  /** No lost wake-up: tasks never wait while all workers sleep and no notification is on its way. */
  lemma NoLostWakeup(s: State, steps: seq<Step>)
    requires Init(s) && Valid(s, steps)
    requires After(s, steps).v.deque != []
    ensures After(s, steps).owed > 0 || exists u | 0 <= u < |After(s, steps).workers| ::
          !After(s, steps).workers[u].Asleep?
  {
    ReachableInv(s, steps);
    var e := After(s, steps);
    if forall u | 0 <= u < |e.workers| :: e.workers[u].Asleep? {
      TotalZero(e.workers, AwakeOne);
      assert e.workers[0].Asleep?;
    }
  }

  /**
   Stronger: as long as any worker sleeps, the whole backlog is covered, task by task, by workers
   that are about to look and notifications still owed; a burst is never served by fewer workers
   than it could be.
   */
  lemma BurstIsCovered(s: State, steps: seq<Step>)
    requires Init(s) && Valid(s, steps) && SomeSleeper(After(s, steps))
    ensures |After(s, steps).v.deque| <= After(s, steps).owed + Total(After(s, steps).workers, AwakeOne)
  {
    ReachableInv(s, steps);
  }

  /**
   Tasks are started in submission order, each at most once: the waiting ones have not been started, and a
   started one is either finished or running on exactly one worker.
   */
  lemma StartedInOrder(s: State, steps: seq<Step>)
    requires Init(s) && Valid(s, steps)
    ensures var e := After(s, steps);
            && (forall j | 0 <= j < |e.v.deque| :: e.v.deque[j] == e.taken + j)
            && (forall k | k in e.done :: k < e.taken)
            && (forall k: nat | k < e.taken && k !in e.done :: exists u | 0 <= u < |e.workers| ::
                  e.workers[u] == Busy(k))
            && (forall u | 0 <= u < |e.workers| && e.workers[u].Busy? ::
                  e.workers[u].task < e.taken && e.workers[u].task !in e.done)
            && (forall u, w | 0 <= u < w < |e.workers| && e.workers[u].Busy? && e.workers[w].Busy? ::
                  e.workers[u].task != e.workers[w].task)
  {
    ReachableInv(s, steps);
  }

  /** No step starts a task that was started before: `taken` only grows, by one per start. */
  lemma StartsNext(s: State, steps: seq<Step>, step: Step, w: nat, k: nat)
    requires Init(s) && Valid(s, steps) && Enabled(After(s, steps), step)
    requires w < |Apply(After(s, steps), step).workers| && Apply(After(s, steps), step).workers[w] == Busy(k)
    requires w < |After(s, steps).workers| ==> After(s, steps).workers[w] != Busy(k)
    ensures k == After(s, steps).taken && Apply(After(s, steps), step).taken == k + 1
  {
    ReachableInv(s, steps);
  }

  /**
   A submission makes one call if nothing was waiting, and otherwise one for every task that was, as far as
   there are idle workers: enough for the whole backlog even if no earlier notification arrives.
   */
  lemma SubmitWakes(s: State, steps: seq<Step>)
    requires Init(s) && Valid(s, steps) && Enabled(After(s, steps), SubmitTask)
    ensures var e := After(s, steps);
            var calls, waiting, idle := Apply(e, SubmitTask).owed - e.owed, |e.v.deque|, Total(e.workers, IdleOne);
            && (waiting == 0 ==> calls == 1)
            && (0 < waiting <= idle ==> calls == waiting)
            && (0 < waiting && idle <= waiting ==> calls == idle)
  {
    ReachableInv(s, steps);
  }

  // ---- coming to rest ----

  /** What a pool does on its own: looks, ends of tasks, and notifications that are owed. */
  predicate Service(step: Step) {
    step.LookAt? || step.Finish? || step.NotifyOne?
  }

  /** Steps a worker makes until it sleeps, if it finds no task. */
  function RestWork(w: Worker): nat {
    match w
    case Asleep => 0
    case Spinning => 1
    case Woken => 1
    case Top => 2
    case Busy(_) => 3
    case Finished => 0
  }

  /** A bound on the service steps until everybody sleeps. */
  function RestMeasure(s: State): nat {
    3 * |s.v.deque| + 2 * s.owed + Total(s.workers, RestWork)
  }

  ghost predicate Serving(s: State) {
    Inv(s) && s.v.running && !s.v.stopping
  }

  lemma ServiceStep(s: State, step: Step)
    requires Serving(s) && Service(step) && Enabled(s, step)
    ensures Serving(Apply(s, step)) && RestMeasure(Apply(s, step)) < RestMeasure(s)
    ensures Accepted(Apply(s, step)) == Accepted(s)
  {
    StepInv(s, step);
    var s' := Apply(s, step);
    if step.NotifyOne? && !Is(s, step.w, Asleep) {
      assert s'.workers == s.workers;
    } else {
      assert s'.workers == s.workers[step.w := s'.workers[step.w]];
      TotalUpdate(s.workers, step.w, s'.workers[step.w], RestWork);
    }
  }

  ghost predicate AllAsleep(s: State) {
    forall u | 0 <= u < |s.workers| :: s.workers[u].Asleep?
  }

  /** No service step is left exactly when every worker sleeps, with no task waiting and no call owed. */
  lemma RestIff(s: State)
    requires Serving(s)
    ensures (forall step | Service(step) :: !Enabled(s, step)) <==> AllAsleep(s) && s.v.deque == [] && s.owed == 0
  {
    if AllAsleep(s) && s.v.deque != [] && s.owed == 0 {
      assert s.workers[0].Asleep?;
      TotalZero(s.workers, AwakeOne);
      assert false;
    } else if s.owed > 0 {
      if u :| 0 <= u < |s.workers| && s.workers[u].Asleep? {
        assert Service(NotifyOne(u)) && Enabled(s, NotifyOne(u));
      } else {
        assert Service(NotifyOne(0)) && Enabled(s, NotifyOne(0));
      }
    } else if u :| 0 <= u < |s.workers| && !s.workers[u].Asleep? {
      if s.workers[u].Busy? {
        assert Service(Finish(u)) && Enabled(s, Finish(u));
      } else {
        assert Service(LookAt(u)) && Enabled(s, LookAt(u));
      }
    }
  }

  lemma {:induction false} ServiceRun(s: State, more: seq<Step>)
    requires Serving(s) && Valid(s, more) && forall j | 0 <= j < |more| :: Service(more[j])
    ensures Serving(After(s, more)) && |more| + RestMeasure(After(s, more)) <= RestMeasure(s)
    ensures Accepted(After(s, more)) == Accepted(s)
    decreases |more|
  {
    if more != [] {
      ServiceStep(s, more[0]);
      ServiceRun(Apply(s, more[0]), more[1..]);
    }
  }

  /**
   A pool to which nothing more is submitted comes to rest: whatever its workers do, after boundedly many
   steps none is left, and then all of them sleep and every accepted task has been run to its end.
   */
  lemma PoolComesToRest(s: State, steps: seq<Step>, more: seq<Step>)
    requires Init(s) && Valid(s, steps) && After(s, steps).v.running && !After(s, steps).v.stopping
    requires Valid(After(s, steps), more) && forall j | 0 <= j < |more| :: Service(more[j])
    ensures |more| <= RestMeasure(After(s, steps))
    ensures var e := After(After(s, steps), more);
            && ((forall step | Service(step) :: !Enabled(e, step)) <==> AllAsleep(e) && e.v.deque == [] && e.owed == 0)
            && (AllAsleep(e) && e.v.deque == [] ==>
                  forall k: nat | k < Accepted(After(s, steps)) :: k in e.done)
  {
    ReachableInv(s, steps);
    ServiceRun(After(s, steps), more);
    RestIff(After(After(s, steps), more));
  }

  // ---- stopping ----

  /** `Stop` may return only when every accepted task has been run to its end. */
  lemma StopDrains(s: State, steps: seq<Step>)
    requires Init(s) && Valid(s, steps) && Enabled(After(s, steps), Joined)
    ensures After(s, steps).v.deque == []
    ensures forall k: nat | k < Accepted(After(s, steps)) :: k in After(s, steps).done
  {
    ReachableInv(s, steps);
    JoinedEmpty(After(s, steps));
  }

  predicate WorkerStep(step: Step) {
    step.LookAt? || step.Finish?
  }

  /** Work left for the workers of a pool that is stopping. */
  function StopMeasure(s: State): nat {
    3 * |s.v.deque| + Total(s.workers, StopWork)
  }

  /**
   Once `Stop` has notified everybody, each worker step brings the join nearer, and until all
   workers are gone some worker step is possible: `Stop` cannot hang on a sleeping worker.
   */
  lemma StopMakesProgress(s: State, steps: seq<Step>)
    requires Init(s) && Valid(s, steps) && After(s, steps).stop == Joining
    ensures var e := After(s, steps);
            && (forall step | WorkerStep(step) && Enabled(e, step) :: StopMeasure(Apply(e, step)) < StopMeasure(e))
            && (Enabled(e, Joined) || exists step :: WorkerStep(step) && Enabled(e, step))
  {
    ReachableInv(s, steps);
    var e := After(s, steps);
    forall step | WorkerStep(step) && Enabled(e, step)
      ensures StopMeasure(Apply(e, step)) < StopMeasure(e)
    {
      TotalUpdate(e.workers, step.w, Apply(e, step).workers[step.w], StopWork);
    }
    if !Enabled(e, Joined) {
      var u :| 0 <= u < |e.workers| && !e.workers[u].Finished?;
      if e.workers[u].Busy? {
        assert WorkerStep(Finish(u)) && Enabled(e, Finish(u));
      } else {
        assert !e.workers[u].Asleep?;
        assert WorkerStep(LookAt(u)) && Enabled(e, LookAt(u));
      }
    }
  }
}
