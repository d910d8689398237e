/**
 The observer as Celery drives it: a trace of lifecycle signals, each delivered
 at a clock reading, folded through the five handlers. The lemmas here relate
 handlers to one another: a before/after publish pair and a prerun/postrun pair
 each yield one duration sample; every handled signal except before-publish
 sends exactly one counter; every duration sample consumes a start time.
 */
module Lifecycle {

  import opened Tables
  import opened Metrics
  import opened Observer

  /** The five Celery signals the observer is connected to, with the payload it reads. */
  datatype Signal =
    | BeforePublish(sender: string)
    | AfterPublish(sender: string)
    | Prerun(taskId: string, task: Option<Task>)
    | Postrun(taskId: string, task: Option<Task>)
    | Failure(taskId: string, task: Option<Task>)

  /** A signal together with the clock reading its handler sees. */
  datatype Delivery = Delivery(signal: Signal, at: int)

  /**
   Routes a signal to its handler. The contract names each signal's
   distinguishing effect: before-publish only records the sender's start,
   after-publish sends `sent` and consumes the sender's start, prerun sends
   `start` and records the task id's start, postrun sends `done` and consumes
   it, and failure sends one counter and changes nothing.
   */
  function Dispatch(s: State, d: Delivery): (r: Outcome)
    ensures r.Raised? <==> (d.signal.Prerun? || d.signal.Postrun?) && d.signal.task.None?
    ensures d.signal.BeforePublish? ==>
      && r.Handled? && r.step.events == []
      && d.signal.sender in r.step.state.publishStarts
      && r.step.state.publishStarts[d.signal.sender] == d.at
      && r.step.state.runStarts == s.runStarts
    ensures d.signal.AfterPublish? ==>
      && r.Handled? && |r.step.events| >= 1
      && r.step.events[0] == Incr(Name(d.signal.sender, SentSuffix))
      && d.signal.sender !in r.step.state.publishStarts
      && r.step.state.runStarts == s.runStarts
    ensures d.signal.Prerun? && d.signal.task.Some? ==>
      && r.Handled? && r.step.events == [Incr(Name(d.signal.task.value.name, StartSuffix))]
      && d.signal.taskId in r.step.state.runStarts
      && r.step.state.runStarts[d.signal.taskId] == d.at
      && r.step.state.publishStarts == s.publishStarts
    ensures d.signal.Postrun? && d.signal.task.Some? ==>
      && r.Handled? && |r.step.events| >= 1
      && r.step.events[0] == Incr(Name(d.signal.task.value.name, DoneSuffix))
      && d.signal.taskId !in r.step.state.runStarts
      && r.step.state.publishStarts == s.publishStarts
    ensures d.signal.Failure? ==>
      && r.Handled? && r.step.state == s
      && r.step.events == [Incr(Name(TaskText(d.signal.task), FailureSuffix))]
  {
    match d.signal
    case BeforePublish(sender) => Handled(BeforeTaskPublish(s, sender, d.at))
    case AfterPublish(sender) => Handled(AfterTaskPublish(s, sender, d.at))
    case Prerun(taskId, task) => TaskPrerun(s, taskId, task, d.at)
    case Postrun(taskId, task) => TaskPostrun(s, taskId, task, d.at)
    case Failure(_, task) => Handled(TaskFailure(s, task))
  }

  /**
   One delivery's effect on the observer. A handler that raises has done
   nothing yet, so the state is kept and no metric is sent.
   */
  function Deliver(s: State, d: Delivery): (r: Step)
    ensures (d.signal.Prerun? || d.signal.Postrun?) && d.signal.task.None? ==> r == Step(s, [])
    ensures !((d.signal.Prerun? || d.signal.Postrun?) && d.signal.task.None?) ==>
      Dispatch(s, d).Handled? && r == Dispatch(s, d).step
  {
    match Dispatch(s, d)
    case Handled(step) => step
    case Raised(_) => Step(s, [])
  }

  /**
   Delivers the signals of a trace in order through the transition `step`,
   concatenating the metrics sent. Kept apart from `Run` so that facts about
   folding do not depend on what the handlers do.
   */
  function Fold(step: (State, Delivery) -> Step, s: State, trace: seq<Delivery>): Step
    decreases |trace|
  {
    if trace == [] then Step(s, [])
    else
      var first := step(s, trace[0]);
      var rest := Fold(step, first.state, trace[1..]);
      Step(rest.state, first.events + rest.events)
  }

  /** The observer driven by a trace of signals. */
  function Run(s: State, trace: seq<Delivery>): Step
  {
    Fold(Deliver, s, trace)
  }

  lemma {:induction false} FoldAppend(step: (State, Delivery) -> Step, s: State, a: seq<Delivery>, b: seq<Delivery>)
    ensures Fold(step, s, a + b).state == Fold(step, Fold(step, s, a).state, b).state
    ensures Fold(step, s, a + b).events == Fold(step, s, a).events + Fold(step, Fold(step, s, a).state, b).events
    decreases |a|
  {
    if a == [] {
      assert a + b == b;
    } else {
      assert (a + b)[0] == a[0];
      assert (a + b)[1..] == a[1..] + b;
      FoldAppend(step, step(s, a[0]).state, a[1..], b);
    }
  }

  /** Running two traces one after the other is running their concatenation. */
  lemma RunAppend(s: State, a: seq<Delivery>, b: seq<Delivery>)
    ensures Run(s, a + b).state == Run(Run(s, a).state, b).state
    ensures Run(s, a + b).events == Run(s, a).events + Run(Run(s, a).state, b).events
  {
    FoldAppend(Deliver, s, a, b);
  }

  /** A one-signal trace is a single delivery. */
  lemma RunOne(s: State, d: Delivery)
    ensures Run(s, [d]) == Deliver(s, d)
  {
    var first := Deliver(s, d);
    assert [d][1..] == [];
    assert Fold(Deliver, first.state, []) == Step(first.state, []);
    assert first.events + [] == first.events;
  }

  /** A two-signal trace is two deliveries in turn. */
  lemma RunTwo(s: State, d1: Delivery, d2: Delivery)
    ensures Run(s, [d1, d2]).state == Deliver(Deliver(s, d1).state, d2).state
    ensures Run(s, [d1, d2]).events == Deliver(s, d1).events + Deliver(Deliver(s, d1).state, d2).events
  {
    assert [d1, d2][1..] == [d2];
    RunOne(Deliver(s, d1).state, d2);
  }

  // ---------------------------------------------------------------------
  // Counters: every handled signal except before-publish sends exactly one.

  /** Whether delivering this signal sends a counter. */
  predicate SendsCounter(sig: Signal)
  {
    match sig
    case BeforePublish(_) => false
    case AfterPublish(_) => true
    case Prerun(_, task) => task.Some?
    case Postrun(_, task) => task.Some?
    case Failure(_, _) => true
  }

  function CountersIn(events: seq<Metric>): nat
  {
    if events == [] then 0 else (if events[0].Incr? then 1 else 0) + CountersIn(events[1..])
  }

  function CounterSignals(trace: seq<Delivery>): nat
  {
    if trace == [] then 0 else (if SendsCounter(trace[0].signal) then 1 else 0) + CounterSignals(trace[1..])
  }

  lemma {:induction false} CountersInAppend(a: seq<Metric>, b: seq<Metric>)
    ensures CountersIn(a + b) == CountersIn(a) + CountersIn(b)
  {
    if a == [] {
      assert a + b == b;
    } else {
      assert (a + b)[1..] == a[1..] + b;
      CountersInAppend(a[1..], b);
    }
  }

  /** A handler's output is one counter, possibly followed by one timing sample. */
  predicate CounterThenMaybeTiming(events: seq<Metric>)
  {
    (|events| == 1 && events[0].Incr?) || (|events| == 2 && events[0].Incr? && events[1].Timing?)
  }

  lemma CounterThenMaybeTimingCounts(events: seq<Metric>)
    requires CounterThenMaybeTiming(events)
    ensures CountersIn(events) == 1
    ensures TimingsIn(events) == |events| - 1
  {
    if |events| == 2 {
      assert events[1..][1..] == [];
    } else {
      assert events[1..] == [];
    }
  }

  /** A single delivery sends one counter exactly when its signal is a counting one. */
  lemma DeliverCounters(s: State, d: Delivery)
    ensures CountersIn(Deliver(s, d).events) == if SendsCounter(d.signal) then 1 else 0
  {
    var events := Deliver(s, d).events;
    if SendsCounter(d.signal) {
      CounterThenMaybeTimingCounts(events);
    }
  }

  /** Over a whole trace, the counters sent are one per counting signal. */
  lemma {:induction false} RunCounters(s: State, trace: seq<Delivery>)
    ensures CountersIn(Run(s, trace).events) == CounterSignals(trace)
    decreases |trace|
  {
    if trace != [] {
      var first := Deliver(s, trace[0]);
      DeliverCounters(s, trace[0]);
      RunCounters(first.state, trace[1..]);
      CountersInAppend(first.events, Run(first.state, trace[1..]).events);
    }
  }

  // ---------------------------------------------------------------------
  // Durations: each timing sample consumes a recorded start time.

  /** Whether delivering this signal records a start time. */
  predicate RecordsStart(sig: Signal)
  {
    sig.BeforePublish? || (sig.Prerun? && sig.task.Some?)
  }

  function TimingsIn(events: seq<Metric>): nat
  {
    if events == [] then 0 else (if events[0].Timing? then 1 else 0) + TimingsIn(events[1..])
  }

  function StartSignals(trace: seq<Delivery>): nat
  {
    if trace == [] then 0 else (if RecordsStart(trace[0].signal) then 1 else 0) + StartSignals(trace[1..])
  }

  /** Number of pending start times in both tables. */
  function Pending(s: State): nat
  {
    |s.publishStarts| + |s.runStarts|
  }

  lemma {:induction false} TimingsInAppend(a: seq<Metric>, b: seq<Metric>)
    ensures TimingsIn(a + b) == TimingsIn(a) + TimingsIn(b)
  {
    if a == [] {
      assert a + b == b;
    } else {
      assert (a + b)[1..] == a[1..] + b;
      TimingsInAppend(a[1..], b);
    }
  }

  lemma BeforePublishTimings(s: State, sender: string, now: int)
    ensures TimingsIn(BeforeTaskPublish(s, sender, now).events) + Pending(BeforeTaskPublish(s, sender, now).state)
            <= Pending(s) + 1
  {
  }

  lemma AfterPublishTimings(s: State, sender: string, now: int)
    ensures TimingsIn(AfterTaskPublish(s, sender, now).events) + Pending(AfterTaskPublish(s, sender, now).state)
            <= Pending(s)
  {
    CounterThenMaybeTimingCounts(AfterTaskPublish(s, sender, now).events);
    PopSize(s.publishStarts, sender);
  }

  lemma PrerunTimings(s: State, taskId: string, task: Task, now: int)
    ensures TimingsIn(TaskPrerun(s, taskId, Some(task), now).step.events)
            + Pending(TaskPrerun(s, taskId, Some(task), now).step.state)
            <= Pending(s) + 1
  {
  }

  lemma PostrunTimings(s: State, taskId: string, task: Task, now: int)
    ensures TimingsIn(TaskPostrun(s, taskId, Some(task), now).step.events)
            + Pending(TaskPostrun(s, taskId, Some(task), now).step.state)
            <= Pending(s)
  {
    CounterThenMaybeTimingCounts(TaskPostrun(s, taskId, Some(task), now).step.events);
    PopSize(s.runStarts, taskId);
  }

  /** A delivery's timing samples are paid for by the start times it removes. */
  lemma DeliverTimings(s: State, d: Delivery)
    ensures TimingsIn(Deliver(s, d).events) + Pending(Deliver(s, d).state)
            <= Pending(s) + if RecordsStart(d.signal) then 1 else 0
  {
    var r := Deliver(s, d);
    match d.signal
    case BeforePublish(sender) =>
      assert r == BeforeTaskPublish(s, sender, d.at);
      BeforePublishTimings(s, sender, d.at);
    case AfterPublish(sender) =>
      assert r == AfterTaskPublish(s, sender, d.at);
      AfterPublishTimings(s, sender, d.at);
    case Prerun(taskId, task) =>
      if task.Some? {
        assert r == TaskPrerun(s, taskId, task, d.at).step;
        PrerunTimings(s, taskId, task.value, d.at);
      } else {
        assert r == Step(s, []);
      }
    case Postrun(taskId, task) =>
      if task.Some? {
        assert r == TaskPostrun(s, taskId, task, d.at).step;
        PostrunTimings(s, taskId, task.value, d.at);
      } else {
        assert r == Step(s, []);
      }
    case Failure(_, task) =>
      assert r == TaskFailure(s, task);
      assert r.events[1..] == [];
  }

  /**
   Over a whole trace, the timing samples sent plus the start times still
   pending never exceed the start times pending at the beginning plus those
   recorded along the way.
   */
  lemma {:induction false} RunTimings(s: State, trace: seq<Delivery>)
    ensures TimingsIn(Run(s, trace).events) + Pending(Run(s, trace).state)
            <= Pending(s) + StartSignals(trace)
    decreases |trace|
  {
    if trace != [] {
      var first := Deliver(s, trace[0]);
      DeliverTimings(s, trace[0]);
      RunTimings(first.state, trace[1..]);
      TimingsInAppend(first.events, Run(first.state, trace[1..]).events);
    }
  }

  // ---------------------------------------------------------------------
  // Paired signals.

  /**
   before-publish at `t0` then after-publish at `t1` for the same sender sends
   the `sent` counter and one publish-time sample measured between the two
   readings; the sender's entry is consumed and nothing else changes.
   */
  lemma PublishPair(s: State, sender: string, t0: int, t1: int)
    requires t0 != 0
    ensures Run(s, [Delivery(BeforePublish(sender), t0), Delivery(AfterPublish(sender), t1)]).events
            == [Incr(Name(sender, SentSuffix)), Timing(Name(sender, PublishRuntimeSuffix), ElapsedMs(t0, t1))]
    ensures Run(s, [Delivery(BeforePublish(sender), t0), Delivery(AfterPublish(sender), t1)]).state
            == s.(publishStarts := s.publishStarts - {sender})
    ensures t0 <= t1 ==> ElapsedMs(t0, t1) >= 0
  {
    RunTwo(s, Delivery(BeforePublish(sender), t0), Delivery(AfterPublish(sender), t1));
    PopAfterPut(s.publishStarts, sender, t0);
  }

  /** after-publish with no recorded start sends only the `sent` counter and changes nothing. */
  lemma PublishWithoutStart(s: State, sender: string, now: int)
    requires sender !in s.publishStarts
    ensures Run(s, [Delivery(AfterPublish(sender), now)]) == Step(s, [Incr(Name(sender, SentSuffix))])
  {
    RunOne(s, Delivery(AfterPublish(sender), now));
    assert s.publishStarts - {sender} == s.publishStarts;
  }

  /**
   Two overlapping publishes of one task type: the second before-publish
   overwrites the first start time, so the first after-publish is measured from
   the later start and the second one sends no sample at all.
   */
  lemma OverlappingPublishes(s: State, sender: string, t1: int, t2: int, t3: int, t4: int)
    requires t2 != 0
    ensures Run(s, [Delivery(BeforePublish(sender), t1), Delivery(BeforePublish(sender), t2),
                    Delivery(AfterPublish(sender), t3), Delivery(AfterPublish(sender), t4)]).events
            == [Incr(Name(sender, SentSuffix)), Timing(Name(sender, PublishRuntimeSuffix), ElapsedMs(t2, t3)),
                Incr(Name(sender, SentSuffix))]
  {
    var a := [Delivery(BeforePublish(sender), t1)];
    var b := [Delivery(BeforePublish(sender), t2), Delivery(AfterPublish(sender), t3)];
    var c := [Delivery(AfterPublish(sender), t4)];
    var sent := Incr(Name(sender, SentSuffix));
    var timing := Timing(Name(sender, PublishRuntimeSuffix), ElapsedMs(t2, t3));
    var s1 := Run(s, a).state;
    var s2 := Run(s1, b).state;
    assert Run(s, a).events == [] by {
      RunOne(s, a[0]);
    }
    assert Run(s1, b).events == [sent, timing] && sender !in s2.publishStarts by {
      PublishPair(s1, sender, t2, t3);
    }
    assert Run(s2, c).events == [sent] by {
      PublishWithoutStart(s2, sender, t4);
    }
    RunAppend(s, a, b);
    RunAppend(s, a + b, c);
    assert a + b + c == [Delivery(BeforePublish(sender), t1), Delivery(BeforePublish(sender), t2),
                         Delivery(AfterPublish(sender), t3), Delivery(AfterPublish(sender), t4)];
    assert [] + [sent, timing] + [sent] == [sent, timing, sent];
  }

  /**
   prerun at `t0` then postrun at `t1` for a task id with no pending start:
   the `start` and `done` counters and one run-time sample measured between
   the two readings, non-negative when the clock did not go back; the tables
   end as they began.
   */
  lemma RunPair(s: State, taskId: string, task: Task, t0: int, t1: int)
    requires taskId !in s.runStarts
    requires t0 != 0
    ensures Run(s, [Delivery(Prerun(taskId, Some(task)), t0), Delivery(Postrun(taskId, Some(task)), t1)])
            == Step(s, [Incr(Name(task.name, StartSuffix)), Incr(Name(task.name, DoneSuffix)),
                        Timing(Name(task.name, RuntimeSuffix), ElapsedMs(t0, t1))])
    ensures t0 <= t1 ==> ElapsedMs(t0, t1) >= 0 && ElapsedMs(t0, t1) * 1000 <= t1 - t0
  {
    RunTwo(s, Delivery(Prerun(taskId, Some(task)), t0), Delivery(Postrun(taskId, Some(task)), t1));
    PopAfterPutRestores(s.runStarts, taskId, t0);
  }

  /** postrun with no recorded start sends only the `done` counter and changes nothing. */
  lemma PostrunWithoutStart(s: State, taskId: string, task: Task, now: int)
    requires taskId !in s.runStarts
    ensures Run(s, [Delivery(Postrun(taskId, Some(task)), now)]) == Step(s, [Incr(Name(task.name, DoneSuffix))])
  {
    RunOne(s, Delivery(Postrun(taskId, Some(task)), now));
    assert s.runStarts - {taskId} == s.runStarts;
  }

  /**
   A run that started at clock reading 0 sends no run-time sample: the stored
   start time is falsy, exactly like a missing one.
   */
  lemma ZeroStartSuppressesRuntime(s: State, taskId: string, task: Task, t1: int)
    requires taskId !in s.runStarts
    ensures Run(s, [Delivery(Prerun(taskId, Some(task)), 0), Delivery(Postrun(taskId, Some(task)), t1)])
            == Step(s, [Incr(Name(task.name, StartSuffix)), Incr(Name(task.name, DoneSuffix))])
  {
    RunTwo(s, Delivery(Prerun(taskId, Some(task)), 0), Delivery(Postrun(taskId, Some(task)), t1));
    PopAfterPutRestores(s.runStarts, taskId, 0);
  }

  lemma ConcatTwoTwo<T>(a: T, b: T, c: T, d: T)
    ensures [a, b] + [c, d] == [a, b, c, d]
  {
  }

  lemma ConcatTwoFour<T>(a: T, b: T, c: T, d: T, e: T, f: T)
    ensures [a, b] + [c, d, e, f] == [a, b, c, d, e, f]
  {
  }

  lemma PutBothRemoveBoth(t: Table, ka: string, kb: string, va: int, vb: int)
    requires ka !in t && kb !in t
    ensures t[ka := va][kb := vb] - {ka, kb} == t
  {
  }

  /** Two preruns record both start times and send both `start` counters. */
  lemma TwoPreruns(s: State, idA: string, idB: string, a: Task, b: Task, ta0: int, tb0: int)
    ensures Run(s, [Delivery(Prerun(idA, Some(a)), ta0), Delivery(Prerun(idB, Some(b)), tb0)])
            == Step(s.(runStarts := s.runStarts[idA := ta0][idB := tb0]),
                    [Incr(Name(a.name, StartSuffix)), Incr(Name(b.name, StartSuffix))])
  {
    RunTwo(s, Delivery(Prerun(idA, Some(a)), ta0), Delivery(Prerun(idB, Some(b)), tb0));
  }

  /** Two postruns of distinct pending task ids each send `done` and their own sample. */
  lemma TwoPostruns(s: State, idA: string, idB: string, a: Task, b: Task, ta1: int, tb1: int)
    requires idA != idB
    requires idA in s.runStarts && s.runStarts[idA] != 0
    requires idB in s.runStarts && s.runStarts[idB] != 0
    ensures Run(s, [Delivery(Postrun(idA, Some(a)), ta1), Delivery(Postrun(idB, Some(b)), tb1)])
            == Step(s.(runStarts := s.runStarts - {idA, idB}),
                    [Incr(Name(a.name, DoneSuffix)), Timing(Name(a.name, RuntimeSuffix), ElapsedMs(s.runStarts[idA], ta1)),
                     Incr(Name(b.name, DoneSuffix)), Timing(Name(b.name, RuntimeSuffix), ElapsedMs(s.runStarts[idB], tb1))])
  {
    RunTwo(s, Delivery(Postrun(idA, Some(a)), ta1), Delivery(Postrun(idB, Some(b)), tb1));
    assert s.runStarts - {idA} - {idB} == s.runStarts - {idA, idB};
  }

  /**
   Two runs with different task ids, interleaved, do not disturb each other:
   each postrun is measured from its own prerun, and the tables end as they began.
   */
  lemma InterleavedRuns(s: State, idA: string, idB: string, a: Task, b: Task, ta0: int, tb0: int, ta1: int, tb1: int)
    requires idA != idB
    requires idA !in s.runStarts && idB !in s.runStarts
    requires ta0 != 0 && tb0 != 0
    ensures Run(s, [Delivery(Prerun(idA, Some(a)), ta0), Delivery(Prerun(idB, Some(b)), tb0),
                    Delivery(Postrun(idA, Some(a)), ta1), Delivery(Postrun(idB, Some(b)), tb1)])
            == Step(s, [Incr(Name(a.name, StartSuffix)), Incr(Name(b.name, StartSuffix)),
                        Incr(Name(a.name, DoneSuffix)), Timing(Name(a.name, RuntimeSuffix), ElapsedMs(ta0, ta1)),
                        Incr(Name(b.name, DoneSuffix)), Timing(Name(b.name, RuntimeSuffix), ElapsedMs(tb0, tb1))])
  {
    var first := [Delivery(Prerun(idA, Some(a)), ta0), Delivery(Prerun(idB, Some(b)), tb0)];
    var second := [Delivery(Postrun(idA, Some(a)), ta1), Delivery(Postrun(idB, Some(b)), tb1)];
    var s2 := s.(runStarts := s.runStarts[idA := ta0][idB := tb0]);
    var starts := [Incr(Name(a.name, StartSuffix)), Incr(Name(b.name, StartSuffix))];
    var ends := [Incr(Name(a.name, DoneSuffix)), Timing(Name(a.name, RuntimeSuffix), ElapsedMs(ta0, ta1)),
                 Incr(Name(b.name, DoneSuffix)), Timing(Name(b.name, RuntimeSuffix), ElapsedMs(tb0, tb1))];
    assert Run(s, first + second) == Step(s, starts + ends) by {
      assert Run(s, first) == Step(s2, starts) by {
        TwoPreruns(s, idA, idB, a, b, ta0, tb0);
      }
      assert Run(s2, second) == Step(s, ends) by {
        TwoPostruns(s2, idA, idB, a, b, ta1, tb1);
        PutBothRemoveBoth(s.runStarts, idA, idB, ta0, tb0);
      }
      RunAppend(s, first, second);
    }
    ConcatTwoTwo(Delivery(Prerun(idA, Some(a)), ta0), Delivery(Prerun(idB, Some(b)), tb0),
                 Delivery(Postrun(idA, Some(a)), ta1), Delivery(Postrun(idB, Some(b)), tb1));
    ConcatTwoFour(Incr(Name(a.name, StartSuffix)), Incr(Name(b.name, StartSuffix)),
                  Incr(Name(a.name, DoneSuffix)), Timing(Name(a.name, RuntimeSuffix), ElapsedMs(ta0, ta1)),
                  Incr(Name(b.name, DoneSuffix)), Timing(Name(b.name, RuntimeSuffix), ElapsedMs(tb0, tb1)));
  }

  /**
   A failure leaves the failed task's start time pending: after prerun and
   failure the entry is still there, and a later postrun with the same task id
   is measured from that original start.
   */
  lemma FailureOrphansStart(s: State, taskId: string, task: Task, t0: int, t1: int, t2: int)
    requires t0 != 0
    ensures var after := Run(s, [Delivery(Prerun(taskId, Some(task)), t0), Delivery(Failure(taskId, Some(task)), t1)]);
            && after.events == [Incr(Name(task.name, StartSuffix)), Incr(Name(task.display, FailureSuffix))]
            && taskId in after.state.runStarts && after.state.runStarts[taskId] == t0
            && after.state.publishStarts == s.publishStarts
            && Deliver(after.state, Delivery(Postrun(taskId, Some(task)), t2)).events
               == [Incr(Name(task.name, DoneSuffix)), Timing(Name(task.name, RuntimeSuffix), ElapsedMs(t0, t2))]
  {
    RunTwo(s, Delivery(Prerun(taskId, Some(task)), t0), Delivery(Failure(taskId, Some(task)), t1));
  }

  /**
   A run signal without a task object makes its handler raise on `task.name`
   before it has done anything: no metric, no change to either table.
   */
  lemma MissingTaskChangesNothing(s: State, taskId: string, at: int)
    ensures Run(s, [Delivery(Prerun(taskId, None), at)]) == Step(s, [])
    ensures Run(s, [Delivery(Postrun(taskId, None), at)]) == Step(s, [])
  {
    RunOne(s, Delivery(Prerun(taskId, None), at));
    RunOne(s, Delivery(Postrun(taskId, None), at));
  }

  /** Re-recording a sender's publish start simply replaces the earlier one. */
  lemma BeforePublishLastWriteWins(s: State, sender: string, t1: int, t2: int)
    ensures BeforeTaskPublish(BeforeTaskPublish(s, sender, t1).state, sender, t2)
            == BeforeTaskPublish(s, sender, t2)
  {
  }

  // ---------------------------------------------------------------------
  // Concrete scenarios, with the clock in microseconds.

  /** Publishing `email_task` from 100.000 s to 100.250 s sends `sent` and a 250 ms sample. */
  lemma EmailTaskScenario()
    ensures Run(Initial, [Delivery(BeforePublish("email_task"), 100_000_000),
                          Delivery(AfterPublish("email_task"), 100_250_000)]).events
            == [Incr("celery.email_task.sent"), Timing("celery.email_task.publish.runtime", 250)]
  {
    PublishPair(Initial, "email_task", 100_000_000, 100_250_000);
    EmailTaskNames();
    assert ElapsedMs(100_000_000, 100_250_000) == 250;
  }

  /**
   Running `resize_image` from 1.000 s to 2.500 s sends `start`, `done` and a
   1500 ms sample; started at 0.000 s instead, the sample is not sent.
   */
  lemma ResizeImageScenario(task: Task)
    requires task.name == "resize_image"
    ensures Run(Initial, [Delivery(Prerun("abc123", Some(task)), 1_000_000),
                          Delivery(Postrun("abc123", Some(task)), 2_500_000)]).events
            == [Incr("celery.resize_image.start"), Incr("celery.resize_image.done"),
                Timing("celery.resize_image.runtime", 1500)]
    ensures Run(Initial, [Delivery(Prerun("abc123", Some(task)), 0),
                          Delivery(Postrun("abc123", Some(task)), 1_500_000)]).events
            == [Incr("celery.resize_image.start"), Incr("celery.resize_image.done")]
  {
    ResizeImageNames();
    assert ElapsedMs(1_000_000, 2_500_000) == 1500;
    RunPair(Initial, "abc123", task, 1_000_000, 2_500_000);
    ZeroStartSuppressesRuntime(Initial, "abc123", task, 1_500_000);
  }
}
