/**
 A routine's thread and whoever starts, pings, cancels and restarts it, as one
 transition system: the ping mutex and condition variable, the due time, and the
 phases in which the scheduler may cancel.  The scheduler's visits to other
 routines do not touch this one's state; to it they are the scheduler being away.
 Wake-ups are never spurious, and a cancelled thread is gone at once.
 */
module Routines {
  import opened PluginTexts
  import opened Plugins
  import opened Gatherers

  // Where a task is: about to post, inside post, back from it, gathering, or returning.
  datatype Stage = ToPost | InPost | Posted(ok: bool) | Gathering | Ending

  // routine_main
  datatype Pc =
    | Boot              // 97-98, before it locks ping_me
    | BootHeld          // 99, before it signals pong
    | BootReady         // 100-103, before its first wait
    | Waiting           // 103, inside pthread_cond_wait, ping_me released
    | Woken             // 103, signalled, has to lock ping_me again
    | Awake             // 105-107
    | Ponged            // 109, before it reads the clock
    | Running(stage: Stage) // 110
    | Finished          // 111
    | Parking           // 102-103

  datatype Owner = Free | ByThread | ByPinger | ByStarter

  // routine_start after pthread_create; it returns 0 as Started and -1 as GaveUp
  datatype Starter = AwaitPong | Locking | Locked | Started | GaveUp

  // scheduler_main and routine_ping for this routine; `parked` says that the due time was
  // read while the thread was waiting.
  datatype Pinger =
    | Away
    | Overdue(parked: bool)   // scheduler.c:49 said yes, routine.c:53 next
    | Holding(parked: bool)   // routine.c:55
    | Signalled              // routine.c:56
    | Syncing                // routine.c:58
    | Failed                 // routine_ping returned -1, scheduler.c:51 next
    | Cancelling             // scheduler.c:53, about to cancel and start anew

  datatype TaskStart = TaskStart(begin: nat, parked: bool)

  /** `starts` is history: the clock reading of each task run since the thread was last started, and whether
      the due time behind it was checked while the thread was parked.  `restarts` counts cancellations. */
  datatype State = State(tick: nat, now: nat, due: nat, begin: nat, task: Task, pc: Pc, lock: Owner, starter: Starter,
                         ponged: bool, pinger: Pinger, wake: bool, starts: seq<TaskStart>, restarts: nat)

  datatype Action = Tick(ms: nat) | ThreadMoves(yes: bool, up: bool) | StarterMoves(timely: bool) | PingerMoves(timely: bool)

  function Init(tick: nat, now: nat): State {
    State(tick, now, 0, 0, Prep, Boot, Free, AwaitPong, false, Away, false, [], 0)
  }

  // The task, one observable step at a time: prep and register, alert, or gather.
  function TaskStep(s: State, stage: Stage, yes: bool, up: bool): State {
    match stage
    case ToPost => s.(pc := Running(InPost))
    case InPost => s.(pc := Running(Posted(yes)))
    case Posted(ok) => s.(pc := Running(Ending), task := if ok then GatherTask else s.task)
    case Gathering => s.(pc := Running(Ending), task := if !yes then GatherTask else if up then AlertUp else AlertDown)
    case Ending => s.(pc := Finished)
  }

  // Calling r->task: plugin_prep may fail or go on to plugin_regr, which posts, as plugin_alert does.
  function TaskEntry(s: State, yes: bool): State {
    match s.task
    case Prep => if yes then s.(task := Regr, pc := Running(ToPost)) else s.(pc := Running(Ending))
    case GatherTask => s.(pc := Running(Gathering))
    case _ => s.(pc := Running(ToPost))
  }

  function ThreadStep(s: State, yes: bool, up: bool): State {
    match s.pc
    case Boot => if s.lock == Free then s.(pc := BootHeld, lock := ByThread) else s
    case BootHeld => s.(pc := BootReady, ponged := true)
    case BootReady => s.(pc := Waiting, lock := Free)
    case Waiting => s
    case Woken => if s.lock == Free then s.(pc := Awake, lock := ByThread) else s
    case Awake => s.(pc := Ponged)
    case Ponged => TaskEntry(s.(begin := s.now, starts := s.starts + [TaskStart(s.now, s.wake)]), yes)
    case Running(stage) => TaskStep(s, stage, yes, up)
    case Finished => s.(pc := Parking, due := s.begin + s.tick)
    case Parking => s.(pc := Waiting, lock := Free)
  }

  function StarterStep(s: State, timely: bool): State {
    match s.starter
    case AwaitPong => if !timely then s.(starter := GaveUp) else if s.ponged then s.(starter := Locking) else s
    case Locking => if s.lock == Free then s.(starter := Locked, lock := ByStarter) else s
    case Locked => s.(starter := Started, lock := Free)
    case Started => s
    case GaveUp => s
  }

  // routine_restart: the thread is cancelled, its mutexes are unlocked, and a new one is created.
  function Restart(s: State): State {
    s.(pc := Boot, lock := Free, starter := AwaitPong, ponged := false, due := 0, pinger := Away, wake := false,
       starts := [], restarts := s.restarts + 1)
  }

  // routine_start has returned.
  predicate Returned(s: State) { s.starter == Started || s.starter == GaveUp }

  function PingerStep(s: State, timely: bool): State {
    match s.pinger
    case Away => if Returned(s) && s.due <= s.now then s.(pinger := Overdue(s.pc == Waiting)) else s
    case Overdue(parked) => if s.lock == Free then s.(pinger := Holding(parked), lock := ByPinger) else s.(pinger := Failed)
    case Holding(parked) => if s.pc == Waiting then s.(pinger := Signalled, pc := Woken, wake := parked) else s.(pinger := Signalled)
    case Signalled => s.(pinger := Syncing, lock := Free)
    case Syncing => s.(pinger := if timely then Away else Failed)
    case Failed => s.(pinger := if s.task == GatherTask then Cancelling else Away)
    case Cancelling => Restart(s)
  }

  function Step(s: State, a: Action): State {
    match a
    case Tick(ms) => s.(now := s.now + ms)
    case ThreadMoves(yes, up) => ThreadStep(s, yes, up)
    case StarterMoves(timely) => StarterStep(s, timely)
    case PingerMoves(timely) => PingerStep(s, timely)
  }

  function Run(tick: nat, now: nat, actions: seq<Action>): State {
    if actions == [] then Init(tick, now)
    else Step(Run(tick, now, actions[..|actions| - 1]), actions[|actions| - 1])
  }

  // ----------------------------------------------------------- invariant

  // The thread holds ping_me from the moment it wakes until it waits again.
  predicate Occupied(pc: Pc) { !pc.Boot? && !pc.Waiting? && !pc.Woken? }

  predicate Booting(pc: Pc) { pc.Boot? || pc.BootHeld? || pc.BootReady? }

  predicate AboutToRun(pc: Pc) { pc.Woken? || pc.Awake? || pc.Ponged? }

  predicate Locks(s: State) {
    && (s.lock == ByThread <==> Occupied(s.pc))
    && (s.lock == ByPinger <==> s.pinger.Holding? || s.pinger.Signalled?)
    && (s.lock == ByStarter <==> s.starter == Locked)
    && (s.starter == Locking || s.starter == Locked || s.starter == Started ==> s.ponged)
    && (s.ponged ==> !s.pc.Boot? && !s.pc.BootHeld?)
    && (s.starter == Locked || s.starter == Started ==> !Booting(s.pc))
    && (!s.pinger.Away? ==> Returned(s))
    && (!Returned(s) ==> Booting(s.pc) || s.pc == Waiting)
    && (s.pinger == Signalled && s.starter == Started ==> s.pc == Woken)
  }

  // Posting happens only while the task is not plugin_gather.
  predicate Phases(s: State) {
    && (s.pc.Running? && (s.pc.stage.ToPost? || s.pc.stage.InPost? || s.pc.stage.Posted?) ==> s.task != GatherTask)
    && (s.pc.Running? && s.pc.stage.Gathering? ==> s.task == GatherTask)
    && (s.pinger == Cancelling ==>
          && (s.pc.Running? ==> s.pc.stage.Gathering? || s.pc.stage.Ending?)
          && (AboutToRun(s.pc) ==> s.task == GatherTask))
  }

  function Last(s: State): nat { if s.starts == [] then 0 else s.starts[|s.starts| - 1].begin }

  // The due time belongs to the last run, and a check made while parked still holds.
  predicate Clock(s: State) {
    && (s.starts != [] ==> s.begin == Last(s) <= s.now)
    && (s.starts != [] && (s.pc.Waiting? || s.pc.Parking? || AboutToRun(s.pc)) ==> s.due == s.begin + s.tick)
    && ((s.pinger.Overdue? || s.pinger.Holding?) && s.pinger.parked ==> s.pc == Waiting && s.due <= s.now)
    && (AboutToRun(s.pc) && s.wake ==> s.due <= s.now)
    && (Booting(s.pc) ==> s.starts == [])
  }

  // Runs that an overdue check made while parked led to are at least a tick after the one before.
  predicate Spread(tick: nat, starts: seq<TaskStart>) {
    forall i :: 0 <= i < |starts| - 1 && starts[i + 1].parked ==> starts[i].begin + tick <= starts[i + 1].begin
  }

  predicate Inv(s: State) { Locks(s) && Phases(s) && Clock(s) && Spread(s.tick, s.starts) }

  lemma TaskLocks(s: State, yes: bool, up: bool)
    requires Locks(s) && (s.pc.Running? || s.pc.Ponged?)
    ensures Locks(ThreadStep(s, yes, up))
  {
  }

  lemma ThreadLocks(s: State, yes: bool, up: bool)
    requires Locks(s)
    ensures Locks(ThreadStep(s, yes, up))
  {
    if s.pc.Running? || s.pc.Ponged? { TaskLocks(s, yes, up); }
  }

  lemma PingerLocks(s: State, timely: bool)
    requires Locks(s)
    ensures Locks(PingerStep(s, timely))
  {
  }

  lemma StepLocks(s: State, a: Action)
    requires Locks(s)
    ensures Locks(Step(s, a))
  {
    match a
    case ThreadMoves(yes, up) => ThreadLocks(s, yes, up);
    case PingerMoves(timely) => PingerLocks(s, timely);
    case _ =>
  }

  lemma StepPhases(s: State, a: Action)
    requires Locks(s) && Phases(s)
    ensures Phases(Step(s, a))
  {
  }

  lemma TaskClock(s: State, yes: bool, up: bool)
    requires Clock(s) && s.pc.Running?
    ensures Clock(TaskStep(s, s.pc.stage, yes, up))
  {
  }

  lemma EntryClock(s: State, yes: bool)
    requires Clock(s) && s.pc.Ponged?
    ensures Clock(TaskEntry(s.(begin := s.now, starts := s.starts + [TaskStart(s.now, s.wake)]), yes))
  {
  }

  lemma ThreadClock(s: State, yes: bool, up: bool)
    requires Locks(s) && Clock(s)
    ensures Clock(ThreadStep(s, yes, up))
  {
    if s.pc.Running? { TaskClock(s, yes, up); } else if s.pc.Ponged? { EntryClock(s, yes); }
  }

  lemma PingerClock(s: State, timely: bool)
    requires Locks(s) && Clock(s)
    ensures Clock(PingerStep(s, timely))
  {
  }

  lemma StepClock(s: State, a: Action)
    requires Locks(s) && Clock(s)
    ensures Clock(Step(s, a))
  {
    match a
    case ThreadMoves(yes, up) => ThreadClock(s, yes, up);
    case PingerMoves(timely) => PingerClock(s, timely);
    case _ =>
  }

  lemma StepSpread(s: State, a: Action)
    requires Clock(s) && Spread(s.tick, s.starts)
    ensures Spread(s.tick, Step(s, a).starts) && Step(s, a).tick == s.tick
  {
    if a.ThreadMoves? && s.pc.Ponged? {
      assert Step(s, a).starts == s.starts + [TaskStart(s.now, s.wake)];
    } else {
      assert Step(s, a).starts == s.starts || Step(s, a).starts == [];
    }
  }

  lemma StepInv(s: State, a: Action)
    requires Inv(s)
    ensures Inv(Step(s, a)) && Step(s, a).tick == s.tick
  {
    StepLocks(s, a);
    StepPhases(s, a);
    StepClock(s, a);
    StepSpread(s, a);
  }

  lemma {:induction false} RunInv(tick: nat, now: nat, actions: seq<Action>)
    ensures Inv(Run(tick, now, actions)) && Run(tick, now, actions).tick == tick
  {
    if actions != [] {
      RunInv(tick, now, actions[..|actions| - 1]);
      StepInv(Run(tick, now, actions[..|actions| - 1]), actions[|actions| - 1]);
    }
  }

  // ------------------------------------------------------------ theorems

  /** Once routine_start has returned 0, a ping that obtains ping_me finds the thread waiting or already woken,
      so its signal is not lost; a ping made while the task runs is rejected. */
  lemma PingOutcome(tick: nat, now: nat, actions: seq<Action>, timely: bool)
    ensures var s := Run(tick, now, actions); var s' := Step(s, PingerMoves(timely));
            && (s.pinger.Holding? && s.starter == Started ==> (s.pc == Waiting || s.pc == Woken) && s'.pc == Woken)
            && (s.pinger.Overdue? && Occupied(s.pc) ==> s'.pinger == Failed && s'.pc == s.pc)
            && (s.pc.Running? ==> Occupied(s.pc))
  {
    RunInv(tick, now, actions);
  }

  // From being signalled to waiting again there is a task run, unless the thread is cancelled.
  lemma {:induction false} SignalLeadsToRun(tick: nat, now: nat, actions: seq<Action>, more: seq<Action>)
    requires Run(tick, now, actions).pc == Woken
    ensures var s, s' := Run(tick, now, actions), Run(tick, now, actions + more);
            && s.restarts <= s'.restarts
            && (s'.restarts == s.restarts ==>
                  |s.starts| <= |s'.starts| && (|s'.starts| == |s.starts| ==> AboutToRun(s'.pc)))
  {
    if more == [] {
      assert actions + more == actions;
    } else {
      var before := more[..|more| - 1];
      assert (actions + more)[..|actions + more| - 1] == actions + before;
      SignalLeadsToRun(tick, now, actions, before);
      RunInv(tick, now, actions + before);
      StepTowardsRun(Run(tick, now, actions + before), more[|more| - 1]);
    }
  }

  lemma StepTowardsRun(s: State, a: Action)
    requires Locks(s)
    ensures var s' := Step(s, a);
            && s.restarts <= s'.restarts
            && (s'.restarts == s.restarts ==>
                  |s.starts| <= |s'.starts| && (|s'.starts| == |s.starts| && AboutToRun(s.pc) ==> AboutToRun(s'.pc)))
  {
    match a
    case ThreadMoves(yes, up) => ThreadTowardsRun(s, yes, up);
    case PingerMoves(timely) => PingerTowardsRun(s, timely);
    case _ =>
  }

  lemma ThreadTowardsRun(s: State, yes: bool, up: bool)
    ensures var s' := ThreadStep(s, yes, up);
            && s'.restarts == s.restarts && |s.starts| <= |s'.starts|
            && (|s'.starts| == |s.starts| && AboutToRun(s.pc) ==> AboutToRun(s'.pc))
  {
  }

  lemma PingerTowardsRun(s: State, timely: bool)
    requires Locks(s)
    ensures var s' := PingerStep(s, timely);
            && s.restarts <= s'.restarts
            && (s'.restarts == s.restarts ==> s'.starts == s.starts && (AboutToRun(s.pc) ==> AboutToRun(s'.pc)))
  {
  }

  /** Every ping that obtained ping_me after a successful start is followed by a task run: unless it is
      cancelled, the thread cannot wait, and so cannot be pinged for another run, before the task has been run. */
  lemma PingLeadsToRun(tick: nat, now: nat, actions: seq<Action>, more: seq<Action>)
    requires var s := Run(tick, now, actions); s.pinger.Holding? && s.starter == Started
    requires var s' := Run(tick, now, actions + [PingerMoves(true)] + more);
             s'.pc == Waiting && s'.restarts == Run(tick, now, actions).restarts
    ensures |Run(tick, now, actions).starts| < |Run(tick, now, actions + [PingerMoves(true)] + more).starts|
  {
    var signalled := actions + [PingerMoves(true)];
    assert signalled[..|actions|] == actions;
    PingOutcome(tick, now, actions, true);
    SignalLeadsToRun(tick, now, signalled, more);
  }

  /** Task runs behind parked checks start at least a tick after the run before. */
  lemma StartsAreTickApart(tick: nat, now: nat, actions: seq<Action>, i: nat)
    requires i + 1 < |Run(tick, now, actions).starts| && Run(tick, now, actions).starts[i + 1].parked
    ensures var starts := Run(tick, now, actions).starts; starts[i].begin + tick <= starts[i + 1].begin
  {
    RunInv(tick, now, actions);
  }

  /** Whenever the scheduler cancels a plugin thread, however often that happened before and whether or not
      its starts succeeded, the thread is not inside post nor on its way there. */
  lemma NeverCancelledInPost(tick: nat, now: nat, actions: seq<Action>)
    requires Run(tick, now, actions).pinger == Cancelling
    ensures var s := Run(tick, now, actions);
            && (s.pc.Running? ==> s.pc.stage == Gathering || s.pc.stage == Ending)
            && (AboutToRun(s.pc) ==> s.task == GatherTask)
  {
    RunInv(tick, now, actions);
  }

  // ------------------------------------------------- a check made too early

  datatype Script = End | Then(a: Action, rest: Script)

  function Play(s: State, script: Script): State
    decreases script
  {
    match script
    case End => s
    case Then(a, rest) => Play(Step(s, a), rest)
  }

  lemma {:induction false} PlayRun(tick: nat, now: nat, actions: seq<Action>, script: Script) returns (actions': seq<Action>)
    ensures actions <= actions' && Run(tick, now, actions') == Play(Run(tick, now, actions), script)
    decreases script
  {
    match script
    case End => actions' := actions;
    case Then(a, rest) =>
      assert (actions + [a])[..|actions|] == actions;
      actions' := PlayRun(tick, now, actions + [a], rest);
  }

  // The thread has been started and waits for its first ping.
  function Idle(tick: nat, now: nat): State {
    State(tick, now, 0, 0, Prep, Waiting, Free, Started, true, Away, false, [], 0)
  }

  // The task runs for the first time.
  function FirstRun(tick: nat, now: nat): State {
    State(tick, now, 0, now, Prep, Running(Ending), ByThread, Started, true, Away, true, [TaskStart(now, true)], 0)
  }

  // The task runs again at the same instant: its due time was read before the first run had moved it.
  function SecondRun(tick: nat, now: nat): State {
    State(tick, now, now + tick, now, Prep, Running(Ending), ByThread, Started, true, Syncing, false,
          [TaskStart(now, true), TaskStart(now, false)], 0)
  }

  lemma Boots(tick: nat, now: nat) returns (script: Script)
    ensures Play(Init(tick, now), script) == Idle(tick, now)
  {
    var t, u := ThreadMoves(false, false), StarterMoves(true);
    script := Then(t, Then(t, Then(u, Then(t, Then(u, Then(u, End))))));
    var s1 := Step(Init(tick, now), t);
    var s2 := Step(s1, t);
    var s3 := Step(s2, u);
    var s4 := Step(s3, t);
    var s5 := Step(s4, u);
    var s6 := Step(s5, u);
    assert s6 == Idle(tick, now);
  }

  lemma RunsOnce(tick: nat, now: nat) returns (script: Script)
    ensures Play(Idle(tick, now), script) == FirstRun(tick, now)
  {
    var t, p := ThreadMoves(false, false), PingerMoves(true);
    script := Then(p, Then(p, Then(p, Then(p, Then(p, Then(t, Then(t, Then(t, End))))))));
    var s1 := Step(Idle(tick, now), p);
    var s2 := Step(s1, p);
    var s3 := Step(s2, p);
    var s4 := Step(s3, p);
    var s5 := Step(s4, p);
    var s6 := Step(s5, t);
    var s7 := Step(s6, t);
    var s8 := Step(s7, t);
    assert s8 == FirstRun(tick, now);
  }

  // The first run is over; the scheduler still believes in the due time it read during the run.
  function Parked(tick: nat, now: nat): State {
    State(tick, now, now + tick, now, Prep, Waiting, Free, Started, true, Overdue(false), true, [TaskStart(now, true)], 0)
  }

  lemma ChecksEarly(tick: nat, now: nat) returns (script: Script)
    ensures Play(FirstRun(tick, now), script) == Parked(tick, now)
  {
    var t, p := ThreadMoves(false, false), PingerMoves(true);
    script := Then(p, Then(t, Then(t, Then(t, End))));
    var s1 := Step(FirstRun(tick, now), p);
    var s2 := Step(s1, t);
    var s3 := Step(s2, t);
    var s4 := Step(s3, t);
    assert s4 == Parked(tick, now);
  }

  lemma RunsAgain(tick: nat, now: nat) returns (script: Script)
    ensures Play(Parked(tick, now), script) == SecondRun(tick, now)
  {
    var t, p := ThreadMoves(false, false), PingerMoves(true);
    script := Then(p, Then(p, Then(p, Then(t, Then(t, Then(t, End))))));
    var s1 := Step(Parked(tick, now), p);
    var s2 := Step(s1, p);
    var s3 := Step(s2, p);
    var s4 := Step(s3, t);
    var s5 := Step(s4, t);
    var s6 := Step(s5, t);
    assert [TaskStart(now, true)] + [TaskStart(now, false)] == [TaskStart(now, true), TaskStart(now, false)];
    assert s6 == SecondRun(tick, now);
  }

  /** A due time read while the task is running is the old one: for every tick some run starts the task
      twice at the same instant. */
  lemma EarlyCheckRushesTask(tick: nat, now: nat) returns (actions: seq<Action>)
    ensures Run(tick, now, actions).starts == [TaskStart(now, true), TaskStart(now, false)]
  {
    var script := Boots(tick, now);
    actions := PlayRun(tick, now, [], script);
    script := RunsOnce(tick, now);
    actions := PlayRun(tick, now, actions, script);
    script := ChecksEarly(tick, now);
    actions := PlayRun(tick, now, actions, script);
    script := RunsAgain(tick, now);
    actions := PlayRun(tick, now, actions, script);
  }

  // --------------------------------------------------- a start that timed out

  /** After a start that returned -1 a ping can obtain ping_me and still be lost: nobody waits yet. */
  lemma PingCanBeLost(tick: nat, now: nat) returns (actions: seq<Action>)
    ensures var s := Run(tick, now, actions);
            s.starter == GaveUp && s.pinger == Signalled && s.pc == Boot && s.starts == []
  {
    var p := PingerMoves(true);
    var script := Then(StarterMoves(false), Then(p, Then(p, Then(p, End))));
    actions := PlayRun(tick, now, [], script);
    var s1 := Step(Init(tick, now), StarterMoves(false));
    var s2 := Step(s1, p);
    var s3 := Step(s2, p);
    assert Play(Init(tick, now), script) == Step(s3, p);
  }

  // ------------------------------------------------ when is a ping timely?

  lemma {:induction false} StartsLater(tick: nat, now: nat, actions: seq<Action>, more: seq<Action>)
    ensures var s, s' := Run(tick, now, actions), Run(tick, now, actions + more);
            && s.now <= s'.now && s.restarts <= s'.restarts
            && (s'.restarts == s.restarts ==>
                  s.starts <= s'.starts && forall i :: |s.starts| <= i < |s'.starts| ==> s.now <= s'.starts[i].begin)
  {
    if more == [] {
      assert actions + more == actions;
    } else {
      var before := more[..|more| - 1];
      assert (actions + more)[..|actions + more| - 1] == actions + before;
      StartsLater(tick, now, actions, before);
      StepLater(Run(tick, now, actions + before), more[|more| - 1]);
    }
  }

  lemma StepLater(s: State, a: Action)
    ensures var s' := Step(s, a);
            && s.now <= s'.now && s.restarts <= s'.restarts
            && (s'.restarts == s.restarts ==> s'.starts == s.starts || s'.starts == s.starts + [TaskStart(s.now, s.wake)])
  {
    match a
    case ThreadMoves(yes, up) => ThreadLater(s, yes, up);
    case _ =>
  }

  lemma ThreadLater(s: State, yes: bool, up: bool)
    ensures var s' := ThreadStep(s, yes, up);
            && s'.now == s.now && s'.restarts == s.restarts
            && (s'.starts == s.starts || s'.starts == s.starts + [TaskStart(s.now, s.wake)])
  {
  }

  // The run that follows the signal about to be sent starts a tick or more after the last one, if not cancelled.
  ghost predicate TimelyAfter(tick: nat, now: nat, actions: seq<Action>, more: seq<Action>) {
    var s, s' := Run(tick, now, actions), Run(tick, now, actions + more);
    s'.restarts == s.restarts && |s.starts| < |s'.starts| ==> Last(s) + tick <= s'.starts[|s.starts|].begin
  }

  // The thread wakes and runs without delay.
  lemma RunsAtOnce(s: State) returns (script: Script)
    requires s.pinger.Holding? && s.pc == Waiting
    ensures var s' := Play(s, script); s'.starts == s.starts + [TaskStart(s.now, s.pinger.parked)] && s'.restarts == s.restarts
  {
    var t, p := ThreadMoves(false, false), PingerMoves(true);
    script := Then(p, Then(p, Then(t, Then(t, Then(t, End)))));
    var s2 := Step(Step(s, p), p);
    assert s2.pc == Woken && s2.lock == Free && s2.starts == s.starts && s2.now == s.now && s2.restarts == s.restarts;
    var s4 := Step(Step(s2, t), t);
    assert s4.pc == Ponged && s4.starts == s.starts && s4.now == s.now && s4.wake == s.pinger.parked;
    assert Play(s, script) == Step(s4, t);
  }

  /** A signal to the waiting thread is bound to start its task a tick or more after the last run iff the
      due time has passed when ping_me is held, whatever an earlier check said. */
  lemma TimelyIffDueUnderLock(tick: nat, now: nat, actions: seq<Action>)
    requires var s := Run(tick, now, actions); s.pinger.Holding? && s.pc == Waiting && s.starts != []
    ensures (forall more :: TimelyAfter(tick, now, actions, more)) <==> Run(tick, now, actions).due <= Run(tick, now, actions).now
  {
    var s := Run(tick, now, actions);
    RunInv(tick, now, actions);
    if s.due <= s.now {
      forall more ensures TimelyAfter(tick, now, actions, more) { StartsLater(tick, now, actions, more); }
    } else {
      var script := RunsAtOnce(s);
      var actions' := PlayRun(tick, now, actions, script);
      var more := actions'[|actions|..];
      assert actions + more == actions';
      assert !TimelyAfter(tick, now, actions, more);
    }
  }

  // ------------------------------------------------------- a hung gather

  /** A ping that failed leads to exactly one restart if the plugin is in its gather phase, and to none otherwise. */
  lemma FailedPingRestarts(tick: nat, now: nat, actions: seq<Action>, first: bool, second: bool)
    requires Run(tick, now, actions).pinger == Failed
    ensures var s, s' := Run(tick, now, actions), Run(tick, now, actions + [PingerMoves(first)] + [PingerMoves(second)]);
            && s'.restarts == s.restarts + (if s.task == GatherTask then 1 else 0)
            && (s'.restarts > s.restarts ==> s'.pc == Boot && s'.lock == Free && s'.starts == [])
            && (s'.restarts == s.restarts ==> s'.pc == s.pc && s'.lock == s.lock && s'.starts == s.starts)
  {
    var before := actions + [PingerMoves(first)];
    assert before[..|actions|] == actions;
    assert (before + [PingerMoves(second)])[..|before|] == before;
  }

  /** So does a signal that is not answered in time; one that is leads to none. */
  lemma LatePongRestarts(tick: nat, now: nat, actions: seq<Action>, timely: bool, first: bool, second: bool)
    requires Run(tick, now, actions).pinger == Syncing
    ensures var s := Run(tick, now, actions);
            var s' := Run(tick, now, actions + [PingerMoves(timely)] + [PingerMoves(first)] + [PingerMoves(second)]);
            s'.restarts == s.restarts + (if !timely && s.task == GatherTask then 1 else 0)
  {
    var before := actions + [PingerMoves(timely)];
    assert before[..|actions|] == actions;
    if !timely {
      FailedPingRestarts(tick, now, before, first, second);
    } else {
      var next := before + [PingerMoves(first)];
      assert next[..|before|] == before;
      assert (next + [PingerMoves(second)])[..|next|] == next;
    }
  }

  // The pinger finds the thread at work, fails, and cancels it.
  lemma Cancels(s: State) returns (script: Script)
    requires s.pinger == Away && Returned(s) && s.due <= s.now && s.lock == ByThread && s.task == GatherTask
    ensures Play(s, script) == Restart(s)
  {
    var p := PingerMoves(true);
    script := Then(p, Then(p, Then(p, Then(p, End))));
    var s1 := Step(s, p);
    var s2 := Step(s1, p);
    assert s2 == s.(pinger := Failed);
    var s3 := Step(s2, p);
    assert Play(s3, Then(p, End)) == Restart(s);
  }

  // A new thread boots, waits, is pinged, and is about to run its task.
  lemma BootsAgain(s: State) returns (script: Script)
    requires s.pc == Boot && s.lock == Free && s.starter == AwaitPong && !s.ponged && s.pinger == Away && s.due == 0
    ensures Play(s, script) == s.(pc := Waiting, starter := Started, ponged := true)
  {
    var t, u := ThreadMoves(false, false), StarterMoves(true);
    script := Then(t, Then(t, Then(u, Then(t, Then(u, Then(u, End))))));
    var s3 := Step(Step(Step(s, t), t), u);
    assert s3 == s.(pc := BootReady, lock := ByThread, ponged := true, starter := Locking);
    var s5 := Step(Step(s3, t), u);
    assert Play(s5, Then(u, End)) == s.(pc := Waiting, starter := Started, ponged := true);
  }

  lemma PingsAgain(s: State) returns (script: Script)
    requires s.pc == Waiting && s.lock == Free && s.starter == Started && s.pinger == Away && s.due <= s.now
    ensures Play(s, script) == s.(pinger := Away, pc := Ponged, lock := ByThread, wake := true)
  {
    var t, p := ThreadMoves(false, false), PingerMoves(true);
    script := Then(p, Then(p, Then(p, Then(p, Then(p, Then(t, Then(t, End)))))));
    var s3 := Step(Step(Step(s, p), p), p);
    assert s3 == s.(pinger := Signalled, pc := Woken, lock := ByPinger, wake := true);
    var s5 := Step(Step(s3, p), p);
    assert s5 == s.(pc := Woken, wake := true);
    assert Play(s5, Then(t, Then(t, End))) == s.(pc := Ponged, lock := ByThread, wake := true);
  }

  /** A gather that hangs does not stop its plugin: whenever one is overdue and the scheduler comes by, there is a
      continuation in which the thread is cancelled and a new one is gathering. */
  lemma HungGatherRecovers(tick: nat, now: nat, actions: seq<Action>) returns (actions': seq<Action>)
    requires var s := Run(tick, now, actions);
             s.pinger == Away && Returned(s) && s.due <= s.now && s.pc.Running? && s.task == GatherTask
    ensures actions <= actions'
    ensures var s, s' := Run(tick, now, actions), Run(tick, now, actions');
            && s'.restarts == s.restarts + 1 && s'.pc == Running(Gathering)
            && s'.starts == [TaskStart(s.now, true)]
  {
    var s := Run(tick, now, actions);
    RunInv(tick, now, actions);
    var script := Cancels(s);
    actions' := PlayRun(tick, now, actions, script);
    script := BootsAgain(Restart(s));
    actions' := PlayRun(tick, now, actions', script);
    var waits := Restart(s).(pc := Waiting, starter := Started, ponged := true);
    script := PingsAgain(waits);
    actions' := PlayRun(tick, now, actions', script);
    script := Then(ThreadMoves(false, false), End);
    actions' := PlayRun(tick, now, actions', script);
  }

  // ------------------------------------------- the task the thread runs

  // What the thread sees of a gather's code: whether it is a change of status, and which.
  function Says(code: Code): (bool, bool) { (code == EPLUGUP || code == EPLUGDOWN, code == EPLUGUP) }

  lemma GatherRunIsRun(forms: Forms, m: Model, i: Input, s: State) returns (script: Script)
    requires s.pc == Ponged && s.task == m.task == GatherTask
    ensures Play(s, script).pc == Finished && Play(s, script).task == TaskRun(forms, m, i).task
  {
    var (yes, up) := Says(i.code);
    var answer := ThreadMoves(yes, up);
    script := Then(answer, Then(answer, Then(answer, End)));
    var s2 := Step(Step(s, answer), answer);
    assert s2.pc == Running(Ending);
    assert Play(s2, Then(answer, End)) == Step(s2, answer);
  }

  // From the entry into a task that posts to its end.
  lemma PostRuns(s: State, yes: bool) returns (script: Script)
    requires s.pc == Running(ToPost)
    ensures Play(s, script).pc == Finished && Play(s, script).task == if yes then GatherTask else s.task
  {
    var answer := ThreadMoves(yes, false);
    script := Then(answer, Then(answer, Then(answer, Then(answer, End))));
    var s2 := Step(Step(s, answer), answer);
    assert s2 == s.(pc := Running(Posted(yes)));
    var s3 := Step(s2, answer);
    assert Play(s3, Then(answer, End)) == Step(s3, answer);
  }

  /** The thread's steps through a task and the plugin's phases are the same machine: for every plugin state and
      every answer of the environment the thread, pinged with that task, ends it with the task that
      `Plugins.TaskRun` says comes next. */
  lemma TaskRunIsRun(forms: Forms, m: Model, i: Input, s: State) returns (script: Script)
    requires s.pc == Ponged && s.task == m.task
    ensures Play(s, script).pc == Finished && Play(s, script).task == TaskRun(forms, m, i).task
  {
    if m.task == GatherTask {
      script := GatherRunIsRun(forms, m, i, s);
    } else {
      var enter := ThreadMoves(i.prepared, false);
      var s1 := Step(s, enter);
      if m.task == Prep && !i.prepared {
        script := Then(enter, Then(enter, End));
        assert Play(s1, Then(enter, End)) == Step(s1, enter);
      } else {
        var rest := PostRuns(s1, i.posted);
        script := Then(enter, rest);
      }
    }
  }
}
