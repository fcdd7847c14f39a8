/** The ranked service: a mutex-guarded queue, a one-slot wake channel, one worker
and any number of callers (internal/ranked/service.go).

Each event is one critical section, one channel operation or one job. `Enabled`
and `After` are the transition system; `Inv` is kept by every event, and the
theorems are about every run from `Init`. */
module RankedQueue {
  import opened Elo

  /** A queued job. A Record saves both ratings of a match; a Load reads one. */
  datatype Job = Record(a: nat, ratingA: Rating, b: nat, ratingB: Rating) | Load(who: nat)

  datatype Worker = AtLock | Parked | Running(job: Job) | Stopped

  /** What a call still has to wait for: nothing, its job, or the worker's end. */
  datatype Goal = Nothing | JobDone(index: nat) | WorkerGone

  /** Signalling: past the critical section, the wake send still ahead. */
  datatype Caller = Idle | Signalling(goal: Goal) | Blocked(goal: Goal)

  datatype State = State(
    queue: seq<Job>, wake: bool, closed: bool, worker: Worker, callers: seq<Caller>,
    store: map<nat, Rating>,
    // history: every job ever queued; whether each one run so far reached the
    // store; what the Loads among them got; how many were queued at the first Close
    log: seq<Job>, oks: seq<bool>, answers: map<nat, Rating>, closedAt: nat)

  datatype Event =
    | Enqueue(t: nat, job: Job)
    | Close(t: nat)
    | Signal(t: nat)
    | Return(t: nat)
    | WorkerLock
    | WorkerWake
    | WorkerRun(ok: bool)

  /** A fresh service over a store. */
  ghost predicate Init(s: State) {
    && s.queue == [] && !s.wake && !s.closed && s.worker == AtLock
    && (forall t | 0 <= t < |s.callers| :: s.callers[t] == Idle)
    && s.log == [] && s.oks == [] && s.answers == map[]
  }

  predicate GoalMet(s: State, g: Goal) {
    match g
    case Nothing => true
    case JobDone(i) => i < |s.oks|
    case WorkerGone => s.worker == Stopped
  }

  predicate Enabled(s: State, e: Event) {
    match e
    case Enqueue(t, _) => t < |s.callers| && s.callers[t] == Idle
    case Close(t) => t < |s.callers| && s.callers[t] == Idle
    case Signal(t) => t < |s.callers| && s.callers[t].Signalling?
    case Return(t) => t < |s.callers| && s.callers[t].Blocked? && GoalMet(s, s.callers[t].goal)
    case WorkerLock => s.worker == AtLock
    case WorkerWake => s.worker == Parked && s.wake
    case WorkerRun(_) => s.worker.Running?
  }

  function Applied(store: map<nat, Rating>, job: Job, ok: bool): map<nat, Rating> {
    if ok && job.Record? then store[job.a := job.ratingA][job.b := job.ratingB] else store
  }

  /** What a Load gets from the store: a new rating when there is none or the read failed. */
  function Read(store: map<nat, Rating>, who: nat, ok: bool): Rating {
    if ok && who in store then store[who] else NewRating()
  }

  function After(s: State, e: Event): State
    requires Enabled(s, e)
  {
    match e
    case Enqueue(t, job) =>
      s.(queue := s.queue + [job], log := s.log + [job],
         callers := s.callers[t := Signalling(if job.Load? then JobDone(|s.log|) else Nothing)])
    case Close(t) =>
      s.(closed := true, closedAt := if s.closed then s.closedAt else |s.log|,
         callers := s.callers[t := Signalling(WorkerGone)])
    case Signal(t) =>
      // the channel holds one token: a second send is dropped
      s.(wake := true, callers := s.callers[t := Blocked(s.callers[t].goal)])
    case Return(t) =>
      s.(callers := s.callers[t := Idle])
    case WorkerLock =>
      if s.queue != [] then s.(queue := s.queue[1..], worker := Running(s.queue[0]))
      else if s.closed then s.(worker := Stopped)
      else s.(worker := Parked)
    case WorkerWake =>
      s.(wake := false, worker := AtLock)
    case WorkerRun(ok) =>
      s.(worker := AtLock, oks := s.oks + [ok],
         store := Applied(s.store, s.worker.job, ok),
         answers := if s.worker.job.Load? then s.answers[|s.oks| := Read(s.store, s.worker.job.who, ok)] else s.answers)
  }

  // ----- The invariant

  /** Jobs run exactly once, in the order they were queued: what is queued is
      exactly what was ever queued, less what ran and what is running. */
  ghost predicate InOrder(s: State) {
    var started := |s.oks| + if s.worker.Running? then 1 else 0;
    && started <= |s.log|
    && s.queue == s.log[started..]
    && (s.worker.Running? ==> s.worker.job == s.log[|s.oks|])
  }

  /** The store after the first n jobs of the log. */
  function Replay(init: map<nat, Rating>, log: seq<Job>, oks: seq<bool>, n: nat): map<nat, Rating>
    requires n <= |log| && n <= |oks|
  {
    if n == 0 then init else Applied(Replay(init, log, oks, n - 1), log[n - 1], oks[n - 1])
  }

  /** Every Load run so far was answered from exactly the jobs queued before it. */
  ghost predicate Answered(init: map<nat, Rating>, s: State) {
    && |s.oks| <= |s.log|
    && s.store == Replay(init, s.log, s.oks, |s.oks|)
    && (forall i | 0 <= i < |s.oks| && s.log[i].Load? ::
          i in s.answers && s.answers[i] == Read(Replay(init, s.log, s.oks, i), s.log[i].who, s.oks[i]))
  }

  /** No lost wakeup: a parked worker with something to do has a token waiting, or
      a caller about to send one. */
  ghost predicate Awake(s: State) {
    s.worker == Parked && (s.queue != [] || s.closed) ==>
      s.wake || exists t :: 0 <= t < |s.callers| && s.callers[t].Signalling?
  }

  ghost predicate GoalKnown(s: State, c: Caller) {
    c != Idle ==>
      match c.goal
      case Nothing => true
      case JobDone(i) => i < |s.log| && s.log[i].Load?
      case WorkerGone => s.closed
  }

  ghost predicate Inv(init: map<nat, Rating>, s: State) {
    && InOrder(s) && Answered(init, s) && Awake(s)
    && (forall t | 0 <= t < |s.callers| :: GoalKnown(s, s.callers[t]))
    && (s.closed ==> s.closedAt <= |s.log|)
    && (s.worker == Stopped ==> s.closed && s.closedAt <= |s.oks|)
  }

  lemma {:induction false} ReplayPrefix(init: map<nat, Rating>, log: seq<Job>, oks: seq<bool>, log': seq<Job>, oks': seq<bool>, n: nat)
    requires n <= |log| && n <= |oks| && log <= log' && oks <= oks'
    ensures Replay(init, log, oks, n) == Replay(init, log', oks', n)
  {
    if n > 0 {
      ReplayPrefix(init, log, oks, log', oks', n - 1);
    }
  }

  lemma InitInv(s: State)
    requires Init(s)
    ensures Inv(s.store, s)
  {
    assert InOrder(s) && Awake(s);
    assert Answered(s.store, s);
  }

  lemma ReplayKept(init: map<nat, Rating>, s: State, e: Event)
    requires Enabled(s, e) && |s.oks| <= |s.log|
    ensures forall i | 0 <= i <= |s.oks| && i <= |After(s, e).oks| && i <= |After(s, e).log| ::
              Replay(init, After(s, e).log, After(s, e).oks, i) == Replay(init, s.log, s.oks, i)
  {
    var s' := After(s, e);
    forall i | 0 <= i <= |s.oks| && i <= |s'.oks| && i <= |s'.log|
      ensures Replay(init, s'.log, s'.oks, i) == Replay(init, s.log, s.oks, i)
    {
      ReplayPrefix(init, s.log, s.oks, s'.log, s'.oks, i);
    }
  }

  lemma RunAnswered(init: map<nat, Rating>, s: State, ok: bool)
    requires InOrder(s) && Answered(init, s) && Enabled(s, WorkerRun(ok))
    ensures Answered(init, After(s, WorkerRun(ok)))
  {
    hide Applied, Read;
    ReplayKept(init, s, WorkerRun(ok));
    var n, s' := |s.oks|, After(s, WorkerRun(ok));
    assert s'.log[n] == s.worker.job;
    assert Replay(init, s'.log, s'.oks, n + 1) == Applied(Replay(init, s'.log, s'.oks, n), s.worker.job, ok);
  }

  lemma StepAnswered(init: map<nat, Rating>, s: State, e: Event)
    requires InOrder(s) && Answered(init, s) && Enabled(s, e)
    ensures Answered(init, After(s, e))
  {
    if e.WorkerRun? {
      RunAnswered(init, s, e.ok);
    } else {
      hide Replay, Applied, Read, InOrder;
      ReplayKept(init, s, e);
    }
  }

  lemma StepAwake(init: map<nat, Rating>, s: State, e: Event)
    requires Inv(init, s) && Enabled(s, e)
    ensures Awake(After(s, e))
  {
    var s' := After(s, e);
    if e.Enqueue? || e.Close? {
      assert s'.callers[e.t].Signalling?;
    } else if e.Return? && s.worker == Parked && (s.queue != [] || s.closed) && !s.wake {
      var t :| 0 <= t < |s.callers| && s.callers[t].Signalling?;
      assert s'.callers[t].Signalling?;
    }
  }

  lemma StepInOrder(s: State, e: Event)
    requires InOrder(s) && Enabled(s, e)
    ensures InOrder(After(s, e))
  {
    hide Applied, Read;
  }

  /** The worker stops only when everything queued has run. */
  lemma StepStops(init: map<nat, Rating>, s: State, e: Event)
    requires Inv(init, s) && Enabled(s, e)
    ensures var s' := After(s, e); s'.worker == Stopped ==> s'.closed && s'.closedAt <= |s'.oks|
  {
    hide Answered, Awake, Applied, Read;
  }

  lemma StepInv(init: map<nat, Rating>, s: State, e: Event)
    requires Inv(init, s) && Enabled(s, e)
    ensures Inv(init, After(s, e))
  {
    hide InOrder, Answered, Awake;
    StepInOrder(s, e);
    StepStops(init, s, e);
    StepAnswered(init, s, e);
    StepAwake(init, s, e);
  }

  // ----- Runs

  ghost predicate Steps(s: State, e: Event, s': State) {
    Enabled(s, e) && s' == After(s, e)
  }

  /** states[i] is the state before events[i]. */
  ghost predicate IsRun(states: seq<State>, events: seq<Event>) {
    && |states| == |events| + 1
    && (forall i | 0 <= i < |events| :: Steps(states[i], events[i], states[i + 1]))
  }

  lemma NextInv(init: map<nat, Rating>, states: seq<State>, events: seq<Event>, i: nat)
    requires IsRun(states, events) && i < |events| && Inv(init, states[i])
    ensures Inv(init, states[i + 1])
  {
    assert Steps(states[i], events[i], states[i + 1]);
    StepInv(init, states[i], events[i]);
  }

  lemma NextGrows(states: seq<State>, events: seq<Event>, i: nat)
    requires IsRun(states, events) && i < |events|
    ensures states[i].log <= states[i + 1].log && states[i].oks <= states[i + 1].oks
  {
    assert Steps(states[i], events[i], states[i + 1]);
  }

  lemma NextMeets(states: seq<State>, events: seq<Event>, i: nat, t: nat)
    requires IsRun(states, events) && i < |events| && events[i] == Return(t)
    ensures t < |states[i].callers| && states[i].callers[t].Blocked? && GoalMet(states[i], states[i].callers[t].goal)
  {
    assert Steps(states[i], events[i], states[i + 1]);
  }

  lemma NextQueues(states: seq<State>, events: seq<Event>, i: nat, t: nat, job: Job)
    requires IsRun(states, events) && i < |events| && events[i] == Enqueue(t, job)
    ensures states[i + 1].log == states[i].log + [job]
  {
    assert Steps(states[i], events[i], states[i + 1]);
  }

  /** Every state of a run satisfies the invariant. */
  lemma {:induction false} RunInv(init: map<nat, Rating>, states: seq<State>, events: seq<Event>, i: nat)
    requires IsRun(states, events) && Inv(init, states[0]) && i < |states|
    ensures Inv(init, states[i])
  {
    if i > 0 {
      RunInv(init, states, events, i - 1);
      NextInv(init, states, events, i - 1);
    }
  }

  /** History only grows along a run. */
  lemma {:induction false} RunGrows(states: seq<State>, events: seq<Event>, i: nat, j: nat)
    requires IsRun(states, events) && i <= j < |states|
    ensures states[i].log <= states[j].log && states[i].oks <= states[j].oks
  {
    if i < j {
      RunGrows(states, events, i, j - 1);
      NextGrows(states, events, j - 1);
    }
  }

  // ----- What callers are promised

  ghost predicate Touches(job: Job, who: nat) {
    job.Record? && (job.a == who || job.b == who)
  }

  /** The rating a record gives a character (b's is written last). */
  function RecordedFor(job: Job, who: nat): Rating
    requires job.Record?
  {
    if job.b == who then job.ratingB else job.ratingA
  }

  /** Replaying keeps the last successful record of a character. */
  lemma {:induction false} LastRecordWins(init: map<nat, Rating>, log: seq<Job>, oks: seq<bool>, n: nat, who: nat, i: nat)
    requires i < n <= |log| && n <= |oks|
    requires Touches(log[i], who) && oks[i]
    requires forall k | i < k < n :: !(Touches(log[k], who) && oks[k])
    ensures who in Replay(init, log, oks, n) && Replay(init, log, oks, n)[who] == RecordedFor(log[i], who)
  {
    if i < n - 1 {
      LastRecordWins(init, log, oks, n - 1, who, i);
    }
  }

  /** rec is the last job among these to have saved a rating of the character. */
  ghost predicate LastSaved(before: seq<Job>, oks: seq<bool>, who: nat, rec: nat) {
    && rec < |before| <= |oks| && Touches(before[rec], who) && oks[rec]
    && (forall k | rec < k < |before| :: !(Touches(before[k], who) && oks[k]))
  }

  /** The Load queued after the jobs `before` has run, and unless the read itself
      failed its answer is the last rating of the character saved among them. */
  ghost predicate AnswerIncludes(before: seq<Job>, s: State, who: nat) {
    var i := |before|;
    && i < |s.oks| && i in s.answers
    && forall rec: nat | LastSaved(before, s.oks, who, rec) ::
         s.oks[i] ==> s.answers[i] == RecordedFor(before[rec], who)
  }

  lemma LoadAnswer(init: map<nat, Rating>, s: State, before: seq<Job>, who: nat)
    requires Inv(init, s)
    requires before + [Load(who)] <= s.log && |before| < |s.oks|
    ensures AnswerIncludes(before, s, who)
  {
    var i, log := |before|, before + [Load(who)];
    assert s.log[i] == log[i];
    forall k | 0 <= k < i ensures s.log[k] == before[k] {
      assert s.log[k] == log[k];
    }
    forall rec: nat | LastSaved(before, s.oks, who, rec)
      ensures s.oks[i] ==> s.answers[i] == RecordedFor(before[rec], who)
    {
      LastRecordWins(init, s.log, s.oks, i, who, rec);
    }
  }

  lemma {:induction false} NobodySaved(init: map<nat, Rating>, log: seq<Job>, oks: seq<bool>, n: nat, who: nat)
    requires n <= |log| && n <= |oks| && forall k | 0 <= k < n :: !(Touches(log[k], who) && oks[k])
    ensures who in Replay(init, log, oks, n) <==> who in init
    ensures who in init ==> Replay(init, log, oks, n)[who] == init[who]
  {
    if n > 0 {
      NobodySaved(init, log, oks, n - 1, who);
    }
  }

  /** A Load with nothing saved before it gets what the store started with, and a newcomer, or
      anybody whose read fails, starts from 1000. */
  lemma FirstLoad(init: map<nat, Rating>, s: State, i: nat)
    requires Inv(init, s) && i < |s.oks| && s.log[i].Load?
    requires forall k | 0 <= k < i :: !(Touches(s.log[k], s.log[i].who) && s.oks[k])
    ensures i in s.answers
    ensures s.answers[i] == if s.oks[i] && s.log[i].who in init then init[s.log[i].who] else Rating(1000, 1000, 0, 0, 0, 0)
  {
    NobodySaved(init, s.log, s.oks, i, s.log[i].who);
  }

  /** The Load called at event c returns at event r. */
  ghost predicate LoadReturns(states: seq<State>, events: seq<Event>, c: nat, r: nat, t: nat, who: nat) {
    && IsRun(states, events) && c < r < |events|
    && events[c] == Enqueue(t, Load(who)) && events[r] == Return(t)
    && t < |states[r].callers| && states[r].callers[t] == Blocked(JobDone(|states[c].log|))
  }

  lemma LoadHasRun(states: seq<State>, events: seq<Event>, c: nat, r: nat, t: nat, who: nat)
    requires LoadReturns(states, events, c, r, t, who)
    ensures states[c].log + [Load(who)] <= states[r].log
    ensures |states[c].log| < |states[r].oks|
  {
    RunGrows(states, events, c + 1, r);
    NextQueues(states, events, c, t, Load(who));
    NextMeets(states, events, r, t);
  }

  /** In every run, when a Load returns its answer includes every Record made before
      it was called. */
  lemma LoadSeesRecords(states: seq<State>, events: seq<Event>, c: nat, r: nat, t: nat, who: nat)
    requires LoadReturns(states, events, c, r, t, who) && Init(states[0])
    ensures AnswerIncludes(states[c].log, states[r], who)
  {
    var init, s, before := states[0].store, states[r], states[c].log;
    assert Inv(init, s) by {
      InitInv(states[0]);
      RunInv(init, states, events, r);
    }
    LoadHasRun(states, events, c, r, t, who);
    LoadAnswer(init, s, before, who);
  }

  lemma NextStaysClosed(states: seq<State>, events: seq<Event>, i: nat)
    requires IsRun(states, events) && i < |events|
    ensures states[i].closed ==> states[i + 1].closed && states[i + 1].closedAt == states[i].closedAt
    ensures events[i].Close? && !states[i].closed ==> states[i + 1].closed && states[i + 1].closedAt == |states[i].log|
  {
    assert Steps(states[i], events[i], states[i + 1]);
  }

  lemma {:induction false} StaysClosed(states: seq<State>, events: seq<Event>, i: nat, j: nat)
    requires IsRun(states, events) && i <= j < |states| && states[i].closed
    ensures states[j].closed && states[j].closedAt == states[i].closedAt
  {
    if i < j {
      StaysClosed(states, events, i, j - 1);
      NextStaysClosed(states, events, j - 1);
    }
  }

  /** In every run, when any Close returns, everything queued before the first Close
      was called has run. */
  lemma CloseFlushes(states: seq<State>, events: seq<Event>, c: nat, r: nat, t: nat)
    requires IsRun(states, events) && Init(states[0]) && c < r < |events|
    requires events[c].Close? && !states[c].closed
    requires events[r] == Return(t) && t < |states[r].callers| && states[r].callers[t] == Blocked(WorkerGone)
    ensures |states[c].log| <= |states[r].oks|
  {
    InitInv(states[0]);
    RunInv(states[0].store, states, events, r);
    NextMeets(states, events, r, t);
    NextStaysClosed(states, events, c);
    StaysClosed(states, events, c + 1, r);
  }

  // ----- Progress

  /** Events other than new calls. */
  predicate Internal(e: Event) {
    !e.Enqueue? && !e.Close?
  }

  function CallerWork(c: Caller): nat {
    match c
    case Idle => 0
    case Blocked(_) => 1
    case Signalling(_) => 4
  }

  function CallersWork(callers: seq<Caller>): nat {
    if callers == [] then 0
    else CallersWork(callers[..|callers| - 1]) + CallerWork(callers[|callers| - 1])
  }

  /** Bounds how many internal events can follow. */
  function Work(s: State): nat {
    2 * |s.queue| + (if s.wake then 2 else 0) + CallersWork(s.callers)
    + match s.worker case AtLock => 1 case Running(_) => 2 case _ => 0
  }

  lemma {:induction false} CallersWorkUpdate(callers: seq<Caller>, t: nat, c: Caller)
    requires t < |callers|
    ensures CallersWork(callers[t := c]) == CallersWork(callers) - CallerWork(callers[t]) + CallerWork(c)
  {
    var n := |callers| - 1;
    if t < n {
      CallersWorkUpdate(callers[..n], t, c);
      assert callers[t := c][..n] == callers[..n][t := c];
    } else {
      assert callers[t := c][..n] == callers[..n];
    }
  }

  /** Every internal event uses work up. */
  lemma InternalDecreases(s: State, e: Event)
    requires Enabled(s, e) && Internal(e)
    ensures Work(After(s, e)) < Work(s)
  {
    match e
    case Signal(t) => CallersWorkUpdate(s.callers, t, Blocked(s.callers[t].goal));
    case Return(t) => CallersWorkUpdate(s.callers, t, Idle);
    case _ =>
  }

  /** Nothing but a new call can happen. */
  ghost predicate Quiet(s: State) {
    forall e | Internal(e) :: !Enabled(s, e)
  }

  /** In a quiet state the worker is parked with nothing to do and no call is
      outstanding, or it has stopped, and then the only calls outstanding wait for
      jobs queued after it stopped. */
  lemma QuietState(init: map<nat, Rating>, s: State)
    requires Inv(init, s) && Quiet(s)
    ensures || (s.worker == Parked && s.queue == [] && !s.closed
                && forall t | 0 <= t < |s.callers| :: s.callers[t] == Idle)
            || (s.worker == Stopped
                && forall t | 0 <= t < |s.callers| :: s.callers[t] == Idle || Orphaned(s, s.callers[t]))
  {
    assert !Enabled(s, WorkerLock) && !Enabled(s, WorkerWake) && !Enabled(s, WorkerRun(true));
    forall t | 0 <= t < |s.callers|
      ensures s.callers[t] == Idle || (s.callers[t].Blocked? && !GoalMet(s, s.callers[t].goal))
    {
      assert !Enabled(s, Signal(t)) && !Enabled(s, Return(t));
      assert GoalKnown(s, s.callers[t]);
    }
    if s.worker == Parked {
      assert s.queue == [] && !s.closed;
      forall t | 0 <= t < |s.callers| ensures s.callers[t] == Idle {
        assert GoalKnown(s, s.callers[t]);
      }
    }
  }

  lemma {:induction false} WorkUsed(states: seq<State>, events: seq<Event>, m: nat, i: nat)
    requires IsRun(states, events) && m <= i < |states|
    requires forall k | m <= k < |events| :: Internal(events[k])
    ensures i - m + Work(states[i]) <= Work(states[m])
    decreases i
  {
    if i > m {
      WorkUsed(states, events, m, i - 1);
      assert Steps(states[i - 1], events[i - 1], states[i - 1 + 1]);
      InternalDecreases(states[i - 1], events[i - 1]);
    }
  }

  // ----- Which jobs run, and which calls return

  /** A job number i of the log that a worker still running has to get to. */
  ghost predicate WillRun(s: State, i: nat) {
    i < |s.log| && (s.worker == Stopped ==> i < |s.oks|)
  }

  lemma StepWillRun(init: map<nat, Rating>, s: State, e: Event, i: nat)
    requires Inv(init, s) && Enabled(s, e) && WillRun(s, i)
    ensures WillRun(After(s, e), i)
  {
  }

  lemma EnqueueStep(init: map<nat, Rating>, s: State, t: nat, job: Job)
    requires Inv(init, s) && Enabled(s, Enqueue(t, job))
    ensures var s' := After(s, Enqueue(t, job));
            && |s.oks| <= |s.log| && (s.worker != Stopped ==> WillRun(s', |s.log|))
            && t < |s'.callers| && (s.worker == Stopped && job.Load? ==> Orphaned(s', s'.callers[t]))
  {
    hide Answered, Awake, GoalKnown;
  }

  lemma {:induction false} RunWillRun(states: seq<State>, events: seq<Event>, k: nat, j: nat, i: nat)
    requires IsRun(states, events) && Init(states[0]) && k <= j < |states| && WillRun(states[k], i)
    ensures WillRun(states[j], i)
    decreases j
  {
    hide Inv, WillRun, Init, Enabled, After;
    if k < j {
      RunWillRun(states, events, k, j - 1, i);
      InitInv(states[0]);
      RunInv(states[0].store, states, events, j - 1);
      assert Steps(states[j - 1], events[j - 1], states[j - 1 + 1]);
      StepWillRun(states[0].store, states[j - 1], events[j - 1], i);
    }
  }

  lemma {:induction false} StaysStopped(states: seq<State>, events: seq<Event>, k: nat, j: nat)
    requires IsRun(states, events) && k <= j < |states| && states[k].worker == Stopped
    ensures states[j].worker == Stopped && states[j].oks == states[k].oks
    decreases j
  {
    if k < j {
      StaysStopped(states, events, k, j - 1);
      assert Steps(states[j - 1], events[j - 1], states[j - 1 + 1]);
    }
  }

  lemma WillHaveRun(s: State, i: nat)
    requires WillRun(s, i) && s.worker == Stopped
    ensures i < |s.oks|
  {
  }

  /** Once the worker has stopped, a job has run if and only if the worker had not stopped
      when it was queued. */
  lemma JobRunsExactly(states: seq<State>, events: seq<Event>, c: nat, j: nat, t: nat, job: Job)
    requires IsRun(states, events) && Init(states[0]) && c < j < |states|
    requires events[c] == Enqueue(t, job) && states[j].worker == Stopped
    ensures |states[c].log| < |states[j].oks| <==> states[c].worker != Stopped
  {
    hide Inv, Init, After, Enabled, Orphaned, WillRun;
    InitInv(states[0]);
    RunInv(states[0].store, states, events, c);
    assert Steps(states[c], events[c], states[c + 1]);
    EnqueueStep(states[0].store, states[c], t, job);
    if states[c].worker == Stopped {
      StaysStopped(states, events, c, j);
    } else {
      RunWillRun(states, events, c + 1, j, |states[c].log|);
      WillHaveRun(states[j], |states[c].log|);
    }
  }

  /** A call that waits for a job the stopped worker will not get to. */
  predicate Orphaned(s: State, c: Caller) {
    s.worker == Stopped && c != Idle && c.goal.JobDone? && c.goal.index >= |s.oks|
  }

  lemma OrphanStep(s: State, e: Event, t: nat)
    requires Enabled(s, e) && t < |s.callers| && Orphaned(s, s.callers[t])
    ensures var s' := After(s, e);
            t < |s'.callers| && Orphaned(s', s'.callers[t]) && s'.callers[t].goal == s.callers[t].goal
  {
  }

  /** An orphaned call never returns, whatever else is called. */
  lemma {:induction false} OrphanStays(states: seq<State>, events: seq<Event>, i: nat, j: nat, t: nat)
    requires IsRun(states, events) && i <= j < |states|
    requires t < |states[i].callers| && Orphaned(states[i], states[i].callers[t])
    ensures t < |states[j].callers| && Orphaned(states[j], states[j].callers[t])
    decreases j
  {
    hide Enabled, After, Orphaned;
    if i < j {
      OrphanStays(states, events, i, j - 1, t);
      assert Steps(states[j - 1], events[j - 1], states[j - 1 + 1]);
      OrphanStep(states[j - 1], events[j - 1], t);
    }
  }

  /** Event c is caller t's Load, called when the worker had stopped. */
  predicate TooLate(states: seq<State>, events: seq<Event>, c: int, t: nat) {
    0 <= c < |events| < |states| && events[c].Enqueue? && events[c].t == t && events[c].job.Load? && states[c].worker == Stopped
  }

  lemma LateIsOrphaned(states: seq<State>, events: seq<Event>, c: nat, t: nat)
    requires IsRun(states, events) && Init(states[0]) && TooLate(states, events, c, t)
    ensures t < |states[c + 1].callers| && Orphaned(states[c + 1], states[c + 1].callers[t])
  {
    hide Inv, Init, After, Enabled, Orphaned, WillRun;
    InitInv(states[0]);
    RunInv(states[0].store, states, events, c);
    assert Steps(states[c], events[c], states[c + 1]);
    EnqueueStep(states[0].store, states[c], t, events[c].job);
  }

  /** The Load a caller waits for: it was queued under that number and has not returned. */
  ghost predicate Asked(states: seq<State>, events: seq<Event>, c: int, t: nat, i: nat) {
    0 <= c < |events| < |states| && events[c].Enqueue? && events[c].t == t && events[c].job.Load? && |states[c].log| == i
  }

  lemma {:induction false} WhoAsked(states: seq<State>, events: seq<Event>, j: nat, t: nat) returns (c: nat)
    requires IsRun(states, events) && Init(states[0]) && j < |states| && t < |states[j].callers|
    requires states[j].callers[t] != Idle && states[j].callers[t].goal.JobDone?
    ensures c < j && Asked(states, events, c, t, states[j].callers[t].goal.index)
  {
    assert j > 0;
    assert Steps(states[j - 1], events[j - 1], states[j - 1 + 1]);
    if events[j - 1].Enqueue? && events[j - 1].t == t {
      c := j - 1;
    } else {
      c := WhoAsked(states, events, j - 1, t);
    }
  }

  /** Which calls hang, exactly. From any point of a run with no new calls after it, boundedly
      many events follow; and when nothing more can happen, the callers still waiting are
      those that called a Load after the worker had stopped, and no others. */
  lemma CallsReturn(states: seq<State>, events: seq<Event>, m: nat)
    requires IsRun(states, events) && Init(states[0]) && m <= |events|
    requires forall i | m <= i < |events| :: Internal(events[i])
    ensures |events| - m <= Work(states[m])
    ensures var s := states[|events|];
            Quiet(s) ==> forall t: nat | t < |s.callers| ::
              s.callers[t] != Idle <==> exists c :: TooLate(states, events, c, t)
  {
    hide Inv, Init, After, Enabled, Quiet, Work;
    WorkUsed(states, events, m, |events|);
    var init, s := states[0].store, states[|events|];
    InitInv(states[0]);
    RunInv(init, states, events, |events|);
    if Quiet(s) {
      QuietState(init, s);
      forall t: nat | t < |s.callers| ensures s.callers[t] != Idle <==> exists c :: TooLate(states, events, c, t) {
        if s.callers[t] != Idle {
          var c := WhoAsked(states, events, |events|, t);
          JobRunsExactly(states, events, c, |events|, t, events[c].job);
          assert TooLate(states, events, c, t);
        }
        if c :| TooLate(states, events, c, t) {
          LateIsOrphaned(states, events, c, t);
          OrphanStays(states, events, c + 1, |events|, t);
        }
      }
    }
  }

  /** A run in which a Load hangs: called once the worker, told to close, has stopped. */
  lemma LoadHangs() returns (states: seq<State>, events: seq<Event>)
    ensures IsRun(states, events) && Init(states[0])
    ensures var s := states[|events|]; TooLate(states, events, 2, 1) && Quiet(s) && 1 < |s.callers| && s.callers[1] != Idle
  {
    var s0 := State([], false, false, AtLock, [Idle, Idle], map[], [], [], map[], 0);
    var s1 := After(s0, Close(0));
    var s2 := After(s1, WorkerLock);
    var s3 := After(s2, Enqueue(1, Load(7)));
    var s4 := After(s3, Signal(0));
    var s5 := After(s4, Return(0));
    var s6 := After(s5, Signal(1));
    states := [s0, s1, s2, s3, s4, s5, s6];
    events := [Close(0), WorkerLock, Enqueue(1, Load(7)), Signal(0), Return(0), Signal(1)];
    assert Steps(s0, Close(0), s1) && Steps(s1, WorkerLock, s2) && Steps(s2, Enqueue(1, Load(7)), s3);
    assert Steps(s3, Signal(0), s4) && Steps(s4, Return(0), s5) && Steps(s5, Signal(1), s6);
    forall i | 0 <= i < |events| ensures Steps(states[i], events[i], states[i + 1]) {
      if i == 0 {} else if i == 1 {} else if i == 2 {} else if i == 3 {} else if i == 4 {} else {}
    }
  }
}
