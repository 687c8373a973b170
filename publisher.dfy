/**
 * The publisher manager of publisherManager.ts as an object: the batch
 * handler and its helpers as methods that issue effects, and the lifecycle
 * (`notificationHandler`, `start`, `status`, `shutdown`) over the fields of
 * the `initPublisherManager` closure.
 *
 * What the manager does over time is recorded in `log`: lock acquisition
 * and release, stream processor start and stop, and every batch handled.
 * The class invariant says the log is balanced between handler runs and
 * that batches are handled and the processor started only while this
 * instance holds the lock, and that the effects issued are exactly those
 * of the batches in the log.
 */
module Publisher {
  import opened Wrappers
  import opened NotificationTypes
  import OutcomeTypes
  import Content
  import opened Dispatch

  const ManagerId: string := "PUBLISHER_MANAGER"

  /** What `lockResource` does: grant the lock, throw TYPE_LOCK_ERROR, or throw anything else. */
  datatype LockOutcome = Acquired | Contended | Failed

  /** One batch delivered by the stream processor, with the caches as read for it. */
  datatype Delivery = Delivery(cat: Catalogue, events: seq<StreamEvent>)

  /**
   * What happens during one two-second wait of the poll loop: at
   * most one batch delivered, possibly a `shutdown()` call, and whether the
   * stream processor still reports itself running at the next check.
   */
  datatype Tick = Tick(delivered: Option<Delivery>, shutdownRequested: bool, processorAlive: bool)

  datatype LifecycleEvent =
    | LockAcquired
    | ProcessorStarted
    | BatchHandled(delivery: Delivery, issued: seq<Effect>)
    | ProcessorStopped
    | LockReleased

  datatype StatusReport = StatusReport(id: string, enable: bool, isSmtpActive: bool, running: bool)

  /** After this tick the poll loop's condition is false. */
  predicate Ends(t: Tick) {
    t.shutdownRequested || !t.processorAlive
  }

  /** The index of the first tick from `from` on that ends the loop, or the number of ticks if none does. */
  function FirstEnd(ticks: seq<Tick>, from: nat): (n: nat)
    requires from <= |ticks|
    ensures from <= n <= |ticks|
    ensures n < |ticks| ==> Ends(ticks[n])
    decreases |ticks| - from
  {
    if from == |ticks| then |ticks|
    else if Ends(ticks[from]) then from
    else FirstEnd(ticks, from + 1)
  }

  /** No tick before `FirstEnd` ends the loop. */
  lemma {:induction false} FirstEndIsFirst(ticks: seq<Tick>, from: nat, j: nat)
    requires from <= |ticks| && from <= j < FirstEnd(ticks, from)
    ensures !Ends(ticks[j])
    decreases |ticks| - from
  {
    if j > from {
      FirstEndIsFirst(ticks, from + 1, j);
    }
  }

  /** A tick that ends the loop bounds `FirstEnd`. */
  lemma {:induction false} FirstEndAtMost(ticks: seq<Tick>, from: nat, k: nat)
    requires from <= k < |ticks| && Ends(ticks[k])
    ensures FirstEnd(ticks, from) <= k
    decreases |ticks| - from
  {
    if from < k && !Ends(ticks[from]) {
      FirstEndAtMost(ticks, from + 1, k);
    }
  }

  /** How many ticks one run of the poll loop goes through. */
  function Consumed(ticks: seq<Tick>, shutdownBefore: bool): (n: nat)
    ensures n <= |ticks|
  {
    if shutdownBefore then 0
    else if FirstEnd(ticks, 0) < |ticks| then FirstEnd(ticks, 0) + 1
    else |ticks|
  }

  /** The batches handled during some ticks, in order. */
  function TickLog(env: Env, ticks: seq<Tick>): (log: seq<LifecycleEvent>)
    ensures |log| <= |ticks|
    ensures forall i :: 0 <= i < |log| ==> log[i].BatchHandled?
  {
    if ticks == [] then []
    else
      TickLog(env, ticks[..|ticks| - 1]) + TickBatch(env, ticks[|ticks| - 1])
  }

  /** The batch handled during one tick, if one was delivered. */
  function TickBatch(env: Env, t: Tick): (log: seq<LifecycleEvent>)
    ensures |log| <= 1 && forall i :: 0 <= i < |log| ==> log[i].BatchHandled?
  {
    if t.delivered.Some? then [Handled(env, t.delivered.value)] else []
  }

  /** A delivered batch, with the effects that handling it issues. */
  function Handled(env: Env, d: Delivery): LifecycleEvent {
    BatchHandled(d, HandleBatch(env, d.cat, d.events).effects)
  }

  /**
   * What one `notificationHandler` run adds to the log. Without the lock
   * nothing is started, but a processor left from an earlier run is shut
   * down again by the `finally` block.
   */
  function HandlerLog(env: Env, lock: LockOutcome, ticks: seq<Tick>, shutdownBefore: bool, hadProcessor: bool): (log: seq<LifecycleEvent>)
    ensures lock == Acquired ==>
      && |log| >= 4 && log[0] == LockAcquired && log[1] == ProcessorStarted
      && log[|log| - 2] == ProcessorStopped && log[|log| - 1] == LockReleased
    ensures lock != Acquired ==> |log| <= 1 && LockAcquired !in log && ProcessorStarted !in log && LockReleased !in log
  {
    if lock == Acquired then
      [LockAcquired, ProcessorStarted] + TickLog(env, ticks[..Consumed(ticks, shutdownBefore)]) + [ProcessorStopped, LockReleased]
    else if hadProcessor then [ProcessorStopped]
    else []
  }

  /** Whether the lock is held after the events of a log. */
  function HeldAfter(log: seq<LifecycleEvent>): bool {
    if log == [] then false
    else
      match log[|log| - 1]
      case LockAcquired => true
      case LockReleased => false
      case _ => HeldAfter(log[..|log| - 1])
  }

  /** Batches are handled, and the processor started, only while the lock is held. */
  predicate UnderLock(log: seq<LifecycleEvent>) {
    log == [] ||
    var front := log[..|log| - 1];
    && UnderLock(front)
    && (log[|log| - 1].BatchHandled? || log[|log| - 1].ProcessorStarted? ==> HeldAfter(front))
  }

  /** The effects of the batches of a log, in order. */
  function LogEffects(log: seq<LifecycleEvent>): seq<Effect> {
    if log == [] then []
    else
      var last := log[|log| - 1];
      LogEffects(log[..|log| - 1]) + (if last.BatchHandled? then last.issued else [])
  }

  lemma {:induction false} LogEffectsConcat(a: seq<LifecycleEvent>, b: seq<LifecycleEvent>)
    ensures LogEffects(a + b) == LogEffects(a) + LogEffects(b)
  {
    if b == [] {
      assert a + b == a;
    } else {
      var front := b[..|b| - 1];
      assert (a + b)[..|a + b| - 1] == a + front;
      LogEffectsConcat(a, front);
    }
  }

  lemma LogEffectsSnoc(log: seq<LifecycleEvent>, x: LifecycleEvent)
    ensures LogEffects(log + [x])
         == LogEffects(log) + (if x.BatchHandled? then x.issued else [])
  {
    assert (log + [x])[..|log|] == log;
  }

  lemma {:induction false} LogEffectsNone(log: seq<LifecycleEvent>)
    requires forall i :: 0 <= i < |log| ==> !log[i].BatchHandled?
    ensures LogEffects(log) == []
  {
    if log != [] {
      LogEffectsNone(log[..|log| - 1]);
    }
  }

  lemma LogEffectsAppendNone(log: seq<LifecycleEvent>, s: seq<LifecycleEvent>)
    requires forall i :: 0 <= i < |s| ==> !s[i].BatchHandled?
    ensures LogEffects(log + s) == LogEffects(log)
  {
    LogEffectsConcat(log, s);
    LogEffectsNone(s);
    assert LogEffects(log) + [] == LogEffects(log);
  }

  /** One more tick of the poll loop adds its batch to the log. */
  lemma PollStep(env: Env, started: seq<LifecycleEvent>, ticks: seq<Tick>, i: nat)
    requires i < |ticks|
    ensures started + TickLog(env, ticks[..i + 1]) == started + TickLog(env, ticks[..i]) + TickBatch(env, ticks[i])
  {
    assert ticks[..i + 1][..i] == ticks[..i];
    AppendAssoc(started, TickLog(env, ticks[..i]), TickBatch(env, ticks[i]));
  }

  lemma UnderLockSnoc(log: seq<LifecycleEvent>, x: LifecycleEvent)
    requires UnderLock(log)
    requires x.BatchHandled? || x.ProcessorStarted? ==> HeldAfter(log)
    ensures UnderLock(log + [x])
    ensures HeldAfter(log + [x]) == (if x.LockAcquired? then true else if x.LockReleased? then false else HeldAfter(log))
  {
    assert (log + [x])[..|log|] == log;
  }

  lemma {:induction false} AppendBatches(log: seq<LifecycleEvent>, batches: seq<LifecycleEvent>)
    requires HeldAfter(log) && UnderLock(log)
    requires forall i :: 0 <= i < |batches| ==> batches[i].BatchHandled?
    ensures HeldAfter(log + batches) && UnderLock(log + batches)
  {
    if batches != [] {
      var front := batches[..|batches| - 1];
      AppendBatches(log, front);
      UnderLockSnoc(log + front, batches[|batches| - 1]);
      assert log + front + [batches[|batches| - 1]] == log + batches;
    } else {
      assert log + batches == log;
    }
  }

  /**
   * Every handler run leaves the lock released and keeps batch handling
   * and processor start inside the span where this instance holds the lock.
   */
  lemma HandlerLogDiscipline(env: Env, log: seq<LifecycleEvent>, lock: LockOutcome, ticks: seq<Tick>,
                             shutdownBefore: bool, hadProcessor: bool)
    requires !HeldAfter(log) && UnderLock(log)
    ensures !HeldAfter(log + HandlerLog(env, lock, ticks, shutdownBefore, hadProcessor))
    ensures UnderLock(log + HandlerLog(env, lock, ticks, shutdownBefore, hadProcessor))
  {
    var h := HandlerLog(env, lock, ticks, shutdownBefore, hadProcessor);
    if lock == Acquired {
      SessionLog(env, log, ticks, shutdownBefore, hadProcessor);
      SessionDiscipline(log, TickLog(env, ticks[..Consumed(ticks, shutdownBefore)]));
    } else if hadProcessor {
      UnderLockSnoc(log, ProcessorStopped);
    } else {
      assert log + h == log;
    }
  }

  /** A session's log, around any batches, keeps the discipline and ends released. */
  lemma SessionDiscipline(log: seq<LifecycleEvent>, batches: seq<LifecycleEvent>)
    requires !HeldAfter(log) && UnderLock(log)
    requires forall i :: 0 <= i < |batches| ==> batches[i].BatchHandled?
    ensures var session := log + [LockAcquired, ProcessorStarted] + batches + [ProcessorStopped, LockReleased];
      !HeldAfter(session) && UnderLock(session)
  {
    UnderLockSnoc(log, LockAcquired);
    UnderLockSnoc(log + [LockAcquired], ProcessorStarted);
    var started := log + [LockAcquired] + [ProcessorStarted];
    assert started == log + [LockAcquired, ProcessorStarted];
    AppendBatches(started, batches);
    UnderLockSnoc(started + batches, ProcessorStopped);
    UnderLockSnoc(started + batches + [ProcessorStopped], LockReleased);
    assert started + batches + [ProcessorStopped] + [LockReleased] == started + batches + [ProcessorStopped, LockReleased];
  }

  /** The log of a run with the lock, as the session writes it. */
  lemma SessionLog(env: Env, log: seq<LifecycleEvent>, ticks: seq<Tick>, shutdownBefore: bool, hadProcessor: bool)
    ensures log + [LockAcquired, ProcessorStarted] + TickLog(env, ticks[..Consumed(ticks, shutdownBefore)]) + [ProcessorStopped, LockReleased]
         == log + HandlerLog(env, Acquired, ticks, shutdownBefore, hadProcessor)
  {
    var batches := TickLog(env, ticks[..Consumed(ticks, shutdownBefore)]);
    AppendAssoc(log, [LockAcquired, ProcessorStarted] + batches, [ProcessorStopped, LockReleased]);
    AppendAssoc(log, [LockAcquired, ProcessorStarted], batches);
  }

  /** The stream processor is started, and a lock acquisition logged, exactly when the lock is acquired. */
  lemma HandlerLogAcquires(env: Env, lock: LockOutcome, ticks: seq<Tick>, shutdownBefore: bool, hadProcessor: bool)
    ensures LockAcquired in HandlerLog(env, lock, ticks, shutdownBefore, hadProcessor) <==> lock == Acquired
    ensures ProcessorStarted in HandlerLog(env, lock, ticks, shutdownBefore, hadProcessor) <==> lock == Acquired
  {
    var h := HandlerLog(env, lock, ticks, shutdownBefore, hadProcessor);
    if lock == Acquired {
      assert h[0] == LockAcquired && h[1] == ProcessorStarted;
    }
  }

  class Manager {
    const env: Env
    /** Whether the configuration enables the publisher manager (off by default). */
    const enabled: bool

    /** Every outbound effect issued, in order. */
    var effects: seq<Effect>
    ghost var log: seq<LifecycleEvent>

    var running: bool
    var shutdown: bool
    var isSmtpActive: bool
    /** `streamScheduler` armed and not cleared. */
    var schedulerActive: bool
    /** `streamProcessor` has been assigned (it never goes back to unassigned). */
    var hasProcessor: bool
    var processorAlive: bool
    var lockHeld: bool

    ghost predicate Valid()
      reads this
    {
      && !lockHeld && !processorAlive
      && !HeldAfter(log) && UnderLock(log)
      && effects == LogEffects(log)
      && (running <==> LockAcquired in log)
    }

    constructor(env: Env, enabled: bool)
      ensures this.env == env && this.enabled == enabled
      ensures effects == [] && log == []
      ensures !running && !shutdown && !isSmtpActive && !schedulerActive
      ensures !hasProcessor && !processorAlive && !lockHeld
      ensures Valid()
    {
      this.env := env;
      this.enabled := enabled;
      effects := [];
      log := [];
      running := false;
      shutdown := false;
      isSmtpActive := false;
      schedulerActive := false;
      hasProcessor := false;
      processorAlive := false;
      lockHeld := false;
    }

    /** One turn of the outcome loop: build the content, pick the action, and issue its effect. */
    method PerformOutcome(cat: Catalogue, tmap: map<string, Trigger>, outcomeMap: map<string, OutcomeTypes.Outcome>,
                          notification: Trigger, job: Job, outcomeId: string) returns (action: Action)
      requires tmap == TriggerMap(cat.triggers) && outcomeMap == OutcomeMap(cat.outcomes)
      modifies this`effects
      ensures action == ActionFor(env, cat, notification, job, outcomeId)
      ensures effects == old(effects) + (if action.Emit? then [action.effect] else [])
    {
      var outcome := Lookup(outcomeMap, outcomeId);
      var content := Content.BuildContent(tmap, job.data);
      action := OutcomeAction(env, cat.settings, notification, job, content, outcome);
      if action.Emit? {
        effects := effects + [action.effect];
      } else {
        assert effects + [] == effects;
      }
    }

    /**
     * One turn of the outcome loop, that of `outcomeIds[i]`: the run so far
     * takes one more step, and `thrown` says whether the outcome threw.
     */
    method OutcomeTurn(cat: Catalogue, tmap: map<string, Trigger>, outcomeMap: map<string, OutcomeTypes.Outcome>,
                       notification: Trigger, job: Job, outcomeIds: seq<string>, i: nat,
                       ghost base: seq<Effect>, ghost run: Run) returns (thrown: bool)
      requires tmap == TriggerMap(cat.triggers) && outcomeMap == OutcomeMap(cat.outcomes)
      requires i < |outcomeIds| && run == DispatchOutcomes(env, cat, notification, job, outcomeIds[..i]) && run.completed
      requires effects == base + run.effects
      modifies this`effects
      ensures Step(run, ActionFor(env, cat, notification, job, outcomeIds[i]))
           == DispatchOutcomes(env, cat, notification, job, outcomeIds[..i + 1])
      ensures thrown <==> !DispatchOutcomes(env, cat, notification, job, outcomeIds[..i + 1]).completed
      ensures effects == base + DispatchOutcomes(env, cat, notification, job, outcomeIds[..i + 1]).effects
    {
      var action := PerformOutcome(cat, tmap, outcomeMap, notification, job, outcomeIds[i]);
      OutcomeStep(env, cat, notification, job, outcomeIds, i);
      StepFacts(run, action);
      AppendAssoc(base, run.effects, if action.Emit? then [action.effect] else []);
      thrown := action.Abort?;
    }

    /** `processNotificationEvent`: the outcome loop, building the content afresh for every outcome. */
    method ProcessNotificationEvent(cat: Catalogue, job: Job) returns (ok: bool)
      modifies this`effects
      ensures effects == old(effects) + DispatchJob(env, cat, job).effects
      ensures ok == DispatchJob(env, cat, job).completed
    {
      var outcomeMap := OutcomeMap(cat.outcomes);
      var tmap := TriggerMap(cat.triggers);
      if job.notificationId !in tmap {
        return true;
      }
      var notification := tmap[job.notificationId];
      var userOutcomes := UserOutcomes(job.user);
      var outcomeIndex := 0;
      ghost var run := Run([], true);
      assert userOutcomes[..0] == [];
      while outcomeIndex < |userOutcomes|
        invariant 0 <= outcomeIndex <= |userOutcomes|
        invariant run == DispatchOutcomes(env, cat, notification, job, userOutcomes[..outcomeIndex])
        invariant run.completed
        invariant effects == old(effects) + run.effects
      {
        var thrown := OutcomeTurn(cat, tmap, outcomeMap, notification, job, userOutcomes, outcomeIndex, old(effects), run);
        run := Step(run, ActionFor(env, cat, notification, job, userOutcomes[outcomeIndex]));
        if thrown {
          DispatchAbortSticky(env, cat, notification, job, userOutcomes, outcomeIndex + 1);
          return false;
        }
        outcomeIndex := outcomeIndex + 1;
      }
      assert userOutcomes[..outcomeIndex] == userOutcomes;
      return true;
    }

    /** `processLiveNotificationEvent`: one call per target, in order. */
    method ProcessLive(cat: Catalogue, e: StreamEvent) returns (ok: bool)
      requires e.LiveEvent?
      modifies this`effects
      ensures effects == old(effects) + RunCalls(env, cat, LiveCalls(e)).effects
      ensures ok == RunCalls(env, cat, LiveCalls(e)).completed
    {
      ghost var calls := LiveCalls(e);
      var index := 0;
      RunNoCalls(env, cat);
      while index < |e.targets|
        invariant 0 <= index <= |e.targets|
        invariant effects == old(effects) + RunCalls(env, cat, calls[..index]).effects
        invariant RunCalls(env, cat, calls[..index]).completed
      {
        ok := ProcessNotificationEvent(cat, LiveJob(e, e.targets[index]));
        LiveStep(env, cat, e, index);
        AppendAssoc(old(effects), RunCalls(env, cat, calls[..index]).effects,
                    DispatchJob(env, cat, LiveJob(e, e.targets[index])).effects);
        if !ok {
          RunCallsAbortSticky(env, cat, calls, index + 1);
          return;
        }
        index := index + 1;
      }
      assert calls[..index] == calls;
      return true;
    }

    /** `processDigestNotificationEvent`: one call with the digest's target and data. */
    method ProcessDigest(cat: Catalogue, e: StreamEvent) returns (ok: bool)
      requires e.DigestEvent?
      modifies this`effects
      ensures effects == old(effects) + RunCalls(env, cat, DigestCalls(e)).effects
      ensures ok == RunCalls(env, cat, DigestCalls(e)).completed
    {
      ok := ProcessNotificationEvent(cat, Job(e.notificationId, e.target, e.data));
      RunOneJob(env, cat, Job(e.notificationId, e.target, e.data));
    }

    /** `publisherStreamHandler`: the events of one batch in delivery order, inside one `try`. */
    method PublisherStreamHandler(cat: Catalogue, events: seq<StreamEvent>) returns (ok: bool)
      modifies this`effects
      ensures effects == old(effects) + HandleBatch(env, cat, events).effects
      ensures ok == HandleBatch(env, cat, events).completed
    {
      var tmap := TriggerMap(cat.triggers);
      var index := 0;
      while index < |events|
        invariant 0 <= index <= |events|
        invariant effects == old(effects) + HandleBatch(env, cat, events[..index]).effects
        invariant HandleBatch(env, cat, events[..index]).completed
      {
        var done := HandleStreamEvent(cat, tmap, events[index]);
        BatchStep(env, cat, events, index);
        AppendAssoc(old(effects), HandleBatch(env, cat, events[..index]).effects,
                    RunCalls(env, cat, EventCalls(tmap, events[index])).effects);
        if !done {
          BatchAbortSticky(env, cat, events, index + 1);
          return false;
        }
        index := index + 1;
      }
      assert events[..index] == events;
      return true;
    }

    /** The body of the batch loop for one event: look up its trigger and take the live or the digest path. */
    method HandleStreamEvent(cat: Catalogue, tmap: map<string, Trigger>, e: StreamEvent) returns (done: bool)
      requires tmap == TriggerMap(cat.triggers)
      modifies this`effects
      ensures effects == old(effects) + RunCalls(env, cat, EventCalls(tmap, e)).effects
      ensures done == RunCalls(env, cat, EventCalls(tmap, e)).completed
    {
      EventRunCases(env, cat, e);
      done := true;
      if e.notificationId in tmap {
        var notification := tmap[e.notificationId];
        if notification.triggerType == LiveTrigger {
          if e.LiveEvent? {
            done := ProcessLive(cat, e);
          } else {
            done := false;
          }
        }
        if notification.triggerType == DigestTrigger {
          if e.DigestEvent? {
            done := ProcessDigest(cat, e);
          } else {
            done := false;
          }
        }
      }
      if RunCalls(env, cat, EventCalls(tmap, e)).effects == [] {
        assert old(effects) + [] == old(effects);
      }
    }

    /** `start`: probe the mail server once and arm the scheduler. */
    method Start(smtpAlive: bool)
      modifies this`isSmtpActive, this`schedulerActive
      ensures isSmtpActive == smtpAlive && schedulerActive
    {
      isSmtpActive := smtpAlive;
      schedulerActive := true;
    }

    /** `status` */
    function Status(): (s: StatusReport)
      reads this
      ensures s.id == ManagerId && s.enable == enabled && s.isSmtpActive == isSmtpActive
      ensures Valid() ==> (s.running <==> LockAcquired in log)
    {
      StatusReport(ManagerId, enabled, isSmtpActive, running)
    }

    /** `shutdown`: raise the flag and clear the scheduler; it always answers true. */
    method Shutdown() returns (r: bool)
      modifies this`shutdown, this`schedulerActive
      ensures r && shutdown && !schedulerActive
    {
      shutdown := true;
      schedulerActive := false;
      return true;
    }

    /**
     * The poll loop of `notificationHandler`, from the start of the stream
     * processor to the first check of the loop condition that fails.
     */
    method Poll(ticks: seq<Tick>, ghost k: nat) returns (consumed: nat)
      requires k < |ticks| && Ends(ticks[k])
      requires processorAlive
      requires effects == LogEffects(log)
      modifies this`effects, this`log, this`shutdown, this`schedulerActive, this`processorAlive
      ensures consumed == Consumed(ticks, old(shutdown))
      ensures log == old(log) + TickLog(env, ticks[..consumed])
      ensures effects == LogEffects(log)
      ensures shutdown == (old(shutdown) || (consumed > 0 && ticks[consumed - 1].shutdownRequested))
      ensures schedulerActive == (old(schedulerActive) && (old(shutdown) || !shutdown))
    {
      ghost var started := log;
      assert ticks[..0] == [];
      assert started + [] == started;
      if shutdown {
        return 0;
      }
      ghost var schedulerBefore := schedulerActive;
      FirstEndAtMost(ticks, 0, k);
      var i := 0;
      while !shutdown && processorAlive
        invariant 0 <= i <= |ticks|
        invariant i == 0 ==> !shutdown && processorAlive
        invariant i > 0 ==> shutdown == ticks[i - 1].shutdownRequested && processorAlive == ticks[i - 1].processorAlive
        invariant i > 0 ==> FirstEnd(ticks, 0) == FirstEnd(ticks, i - 1)
        invariant schedulerActive == (schedulerBefore && !shutdown)
        invariant log == started + TickLog(env, ticks[..i])
        invariant effects == LogEffects(log)
        decreases |ticks| - i
      {
        assert i <= FirstEnd(ticks, i) == FirstEnd(ticks, 0) <= k;
        i := i + 1;
        Wait(ticks, i, started);
      }
      assert FirstEnd(ticks, i - 1) == i - 1;
      return i;
    }

    /** The `n`-th turn of the poll loop, in terms of the log of its first `n` ticks. */
    method Wait(ticks: seq<Tick>, n: nat, ghost started: seq<LifecycleEvent>)
      requires 0 < n <= |ticks| && !shutdown
      requires log == started + TickLog(env, ticks[..n - 1]) && effects == LogEffects(log)
      modifies this`effects, this`log, this`shutdown, this`schedulerActive, this`processorAlive
      ensures log == started + TickLog(env, ticks[..n]) && effects == LogEffects(log)
      ensures shutdown == ticks[n - 1].shutdownRequested && processorAlive == ticks[n - 1].processorAlive
      ensures schedulerActive == (old(schedulerActive) && !shutdown)
    {
      PollStep(env, started, ticks, n - 1);
      PollTick(ticks[n - 1]);
    }

    /**
     * One two-second wait of the poll loop: the batch delivered
     * meanwhile is handled, a `shutdown()` call raises the flag, and the
     * processor's liveness is read again.
     */
    method PollTick(t: Tick)
      requires effects == LogEffects(log)
      modifies this`effects, this`log, this`shutdown, this`schedulerActive, this`processorAlive
      ensures log == old(log) + TickBatch(env, t)
      ensures effects == LogEffects(log)
      ensures shutdown == (old(shutdown) || t.shutdownRequested)
      ensures schedulerActive == (old(schedulerActive) && !t.shutdownRequested)
      ensures processorAlive == t.processorAlive
    {
      if t.delivered.Some? {
        var d := t.delivered.value;
        var handled := PublisherStreamHandler(d.cat, d.events);
        LogEffectsSnoc(log, Handled(env, d));
        log := log + [Handled(env, d)];
      } else {
        assert log + [] == log;
      }
      if t.shutdownRequested {
        var _ := Shutdown();
      }
      processorAlive := t.processorAlive;
    }

    /** Take the lock and start the stream processor. */
    method Acquire()
      requires Valid()
      modifies this`lockHeld, this`running, this`hasProcessor, this`processorAlive, this`log
      ensures log == old(log) + [LockAcquired, ProcessorStarted]
      ensures HeldAfter(log) && UnderLock(log) && effects == LogEffects(log)
      ensures lockHeld && running && hasProcessor && processorAlive
      ensures LockAcquired in log
    {
      lockHeld := true;
      running := true;
      hasProcessor := true;
      processorAlive := true;
      LogEffectsAppendNone(log, [LockAcquired, ProcessorStarted]);
      UnderLockSnoc(log, LockAcquired);
      UnderLockSnoc(log + [LockAcquired], ProcessorStarted);
      assert log + [LockAcquired] + [ProcessorStarted] == log + [LockAcquired, ProcessorStarted];
      log := log + [LockAcquired, ProcessorStarted];
    }

    /** The `finally` block after a session: stop the processor and release the lock. */
    method Release()
      requires HeldAfter(log) && UnderLock(log) && effects == LogEffects(log)
      requires running && LockAcquired in log
      modifies this`lockHeld, this`processorAlive, this`log
      ensures log == old(log) + [ProcessorStopped, LockReleased]
      ensures Valid()
    {
      processorAlive := false;
      lockHeld := false;
      LogEffectsAppendNone(log, [ProcessorStopped, LockReleased]);
      UnderLockSnoc(log, ProcessorStopped);
      UnderLockSnoc(log + [ProcessorStopped], LockReleased);
      assert log + [ProcessorStopped] + [LockReleased] == log + [ProcessorStopped, LockReleased];
      log := log + [ProcessorStopped, LockReleased];
    }

    /**
     * The part of `notificationHandler` that runs with the lock: start the
     * stream processor, poll, then stop it and release the lock.
     */
    method Session(ticks: seq<Tick>, ghost k: nat) returns (consumed: nat)
      requires Valid()
      requires k < |ticks| && Ends(ticks[k])
      modifies this`lockHeld, this`running, this`hasProcessor, this`processorAlive, this`log, this`effects,
               this`shutdown, this`schedulerActive
      ensures Valid()
      ensures consumed == Consumed(ticks, old(shutdown))
      ensures log == old(log) + [LockAcquired, ProcessorStarted] + TickLog(env, ticks[..consumed]) + [ProcessorStopped, LockReleased]
      ensures running && hasProcessor
      ensures shutdown == (old(shutdown) || (consumed > 0 && ticks[consumed - 1].shutdownRequested))
      ensures schedulerActive == (old(schedulerActive) && (old(shutdown) || !shutdown))
    {
      Acquire();
      consumed := Serve(ticks, k);
    }

    /** With the lock held and the processor started: poll, then run the `finally` block. */
    method Serve(ticks: seq<Tick>, ghost k: nat) returns (consumed: nat)
      requires k < |ticks| && Ends(ticks[k])
      requires HeldAfter(log) && UnderLock(log) && effects == LogEffects(log)
      requires processorAlive && running && LockAcquired in log
      modifies this`effects, this`log, this`shutdown, this`schedulerActive, this`processorAlive, this`lockHeld
      ensures Valid()
      ensures consumed == Consumed(ticks, old(shutdown))
      ensures log == old(log) + TickLog(env, ticks[..consumed]) + [ProcessorStopped, LockReleased]
      ensures shutdown == (old(shutdown) || (consumed > 0 && ticks[consumed - 1].shutdownRequested))
      ensures schedulerActive == (old(schedulerActive) && (old(shutdown) || !shutdown))
    {
      ghost var started := log;
      consumed := Poll(ticks, k);
      AppendBatches(started, TickLog(env, ticks[..consumed]));
      Release();
    }

    /**
     * `notificationHandler`: with the lock, run a session; in every case the
     * `finally` block stops the processor if one was ever assigned (it
     * may be left from an earlier run), and releases the lock if it was
     * acquired.
     */
    method NotificationHandler(lock: LockOutcome, ticks: seq<Tick>)
      requires Valid()
      requires lock == Acquired ==> exists k :: 0 <= k < |ticks| && Ends(ticks[k])
      modifies this
      ensures Valid()
      ensures log == old(log) + HandlerLog(env, lock, ticks, old(shutdown), old(hasProcessor))
      ensures effects == old(effects) + LogEffects(HandlerLog(env, lock, ticks, old(shutdown), old(hasProcessor)))
      ensures running == (old(running) || lock == Acquired)
      ensures hasProcessor == (old(hasProcessor) || lock == Acquired)
      ensures lock != Acquired ==> shutdown == old(shutdown) && schedulerActive == old(schedulerActive)
      ensures lock == Acquired ==>
        shutdown == (old(shutdown) || (Consumed(ticks, old(shutdown)) > 0 && ticks[Consumed(ticks, old(shutdown)) - 1].shutdownRequested))
      ensures lock == Acquired ==> schedulerActive == (old(schedulerActive) && (old(shutdown) || !shutdown))
      ensures isSmtpActive == old(isSmtpActive)
    {
      if lock == Acquired {
        ghost var k :| 0 <= k < |ticks| && Ends(ticks[k]);
        Locked(ticks, k);
      } else if hasProcessor {
        StopStale(lock, ticks);
      } else {
        assert log + [] == log;
        assert effects + [] == effects;
      }
    }

    /** A handler run that acquired the lock, in terms of the handler's log. */
    method Locked(ticks: seq<Tick>, ghost k: nat)
      requires Valid()
      requires k < |ticks| && Ends(ticks[k])
      modifies this`lockHeld, this`running, this`hasProcessor, this`processorAlive, this`log, this`effects,
               this`shutdown, this`schedulerActive
      ensures Valid()
      ensures log == old(log) + HandlerLog(env, Acquired, ticks, old(shutdown), old(hasProcessor))
      ensures effects == old(effects) + LogEffects(HandlerLog(env, Acquired, ticks, old(shutdown), old(hasProcessor)))
      ensures running && hasProcessor
      ensures shutdown == (old(shutdown) || (Consumed(ticks, old(shutdown)) > 0 && ticks[Consumed(ticks, old(shutdown)) - 1].shutdownRequested))
      ensures schedulerActive == (old(schedulerActive) && (old(shutdown) || !shutdown))
    {
      ghost var h := HandlerLog(env, Acquired, ticks, shutdown, hasProcessor);
      SessionLog(env, log, ticks, shutdown, hasProcessor);
      LogEffectsConcat(log, h);
      var consumed := Session(ticks, k);
    }

    /** A handler run without the lock: the `finally` block stops the processor left from an earlier run. */
    method StopStale(lock: LockOutcome, ticks: seq<Tick>)
      requires Valid() && hasProcessor && lock != Acquired
      modifies this`processorAlive, this`log
      ensures Valid()
      ensures log == old(log) + HandlerLog(env, lock, ticks, old(shutdown), old(hasProcessor))
      ensures effects == old(effects) + LogEffects(HandlerLog(env, lock, ticks, old(shutdown), old(hasProcessor)))
    {
      HandlerLogDiscipline(env, log, lock, ticks, shutdown, true);
      HandlerLogAcquires(env, lock, ticks, shutdown, true);
      LogEffectsConcat(log, [ProcessorStopped]);
      LogEffectsNone([ProcessorStopped]);
      processorAlive := false;
      log := log + [ProcessorStopped];
    }
  }

  lemma RunNoCalls(env: Env, cat: Catalogue)
    ensures RunCalls(env, cat, []) == Run([], true)
  {
  }

  lemma RunCallsAppendJob(env: Env, cat: Catalogue, calls: seq<Call>, job: Job)
    requires RunCalls(env, cat, calls).completed
    ensures RunCalls(env, cat, calls + [Process(job)])
         == Run(RunCalls(env, cat, calls).effects + DispatchJob(env, cat, job).effects, DispatchJob(env, cat, job).completed)
  {
    assert (calls + [Process(job)])[..|calls|] == calls;
  }

  lemma OutcomeStep(env: Env, cat: Catalogue, notification: Trigger, job: Job, outcomeIds: seq<string>, i: nat)
    requires i < |outcomeIds|
    ensures DispatchOutcomes(env, cat, notification, job, outcomeIds[..i + 1])
         == Step(DispatchOutcomes(env, cat, notification, job, outcomeIds[..i]),
                 ActionFor(env, cat, notification, job, outcomeIds[i]))
  {
    assert outcomeIds[..i + 1][..i] == outcomeIds[..i];
  }

  /** What the calls of one event of a batch come to, case by case. */
  lemma EventRunCases(env: Env, cat: Catalogue, e: StreamEvent)
    ensures var tmap := TriggerMap(cat.triggers);
      var r := RunCalls(env, cat, EventCalls(tmap, e));
      && (e.notificationId !in tmap ==> r == Run([], true))
      && (e.notificationId in tmap && tmap[e.notificationId].triggerType == LiveTrigger ==>
            r == (if e.LiveEvent? then RunCalls(env, cat, LiveCalls(e)) else Run([], false)))
      && (e.notificationId in tmap && tmap[e.notificationId].triggerType == DigestTrigger ==>
            r == (if e.DigestEvent? then RunCalls(env, cat, DigestCalls(e)) else Run([], false)))
      && (e.notificationId in tmap && tmap[e.notificationId].triggerType !in {LiveTrigger, DigestTrigger} ==>
            r == Run([], true))
  {
    assert [Malformed][..0] == [];
  }

  lemma PrefixSnoc<T>(s: seq<T>, i: nat)
    requires i < |s|
    ensures s[..i + 1] == s[..i] + [s[i]]
  {
  }

  lemma AppendAssoc<T>(a: seq<T>, b: seq<T>, c: seq<T>)
    ensures a + (b + c) == a + b + c
  {
  }

  lemma LiveStep(env: Env, cat: Catalogue, e: StreamEvent, index: nat)
    requires e.LiveEvent? && index < |e.targets|
    requires RunCalls(env, cat, LiveCalls(e)[..index]).completed
    ensures var job := LiveJob(e, e.targets[index]);
      RunCalls(env, cat, LiveCalls(e)[..index + 1])
        == Run(RunCalls(env, cat, LiveCalls(e)[..index]).effects + DispatchJob(env, cat, job).effects,
               DispatchJob(env, cat, job).completed)
  {
    var calls := LiveCalls(e);
    var job := LiveJob(e, e.targets[index]);
    assert calls[index] == Process(job);
    PrefixSnoc(calls, index);
    RunCallsAppendJob(env, cat, calls[..index], job);
  }

  lemma RunCallsAbortSticky(env: Env, cat: Catalogue, calls: seq<Call>, i: nat)
    requires i <= |calls|
    requires !RunCalls(env, cat, calls[..i]).completed
    ensures RunCalls(env, cat, calls) == RunCalls(env, cat, calls[..i])
  {
    RunCallsConcat(env, cat, calls[..i], calls[i..]);
    assert calls[..i] + calls[i..] == calls;
  }

  lemma RunOneJob(env: Env, cat: Catalogue, job: Job)
    ensures RunCalls(env, cat, [Process(job)]) == DispatchJob(env, cat, job)
  {
    assert [Process(job)][..0] == [];
  }

  /** One more event of a batch: its calls run after those of the events before it. */
  lemma BatchStep(env: Env, cat: Catalogue, events: seq<StreamEvent>, index: nat)
    requires index < |events|
    requires HandleBatch(env, cat, events[..index]).completed
    ensures var r := RunCalls(env, cat, EventCalls(TriggerMap(cat.triggers), events[index]));
      HandleBatch(env, cat, events[..index + 1]) == Run(HandleBatch(env, cat, events[..index]).effects + r.effects, r.completed)
  {
    var tmap := TriggerMap(cat.triggers);
    var e := events[index];
    assert events[..index + 1] == events[..index] + [e];
    BatchInDeliveryOrder(env, cat, events[..index], [e]);
    assert Route(tmap, [e]) == EventCalls(tmap, e) by {
      assert [e][..0] == [];
      assert Route(tmap, []) == [];
    }
  }

  /** Once an event of a batch has thrown, the later events change nothing. */
  lemma BatchAbortSticky(env: Env, cat: Catalogue, events: seq<StreamEvent>, i: nat)
    requires i <= |events|
    requires !HandleBatch(env, cat, events[..i]).completed
    ensures HandleBatch(env, cat, events) == HandleBatch(env, cat, events[..i])
  {
    AbortSkipsRestOfBatch(env, cat, events[..i], events[i..]);
    assert events[..i] + events[i..] == events;
  }
}
