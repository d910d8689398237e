/**
 The Celery lifecycle observer of django_statsd/celery.py. Its state is the two
 module-level correlation tables; each signal handler is a pure transition
 that takes the state, a clock reading and the signal's payload and returns
 the next state together with the statsd calls it makes, in order.
 */
module Observer {

  import opened Tables
  import opened Metrics

  /**
   `publishStarts` is `_task_publish_start_times`, keyed by the publishing
   sender (the task type); `runStarts` is `_task_start_times`, keyed by task id.
   */
  datatype State = State(publishStarts: Table, runStarts: Table)

  /** Both tables empty, as when the module is first imported. */
  const Initial: State := State(map[], map[])

  /**
   The task object a run signal carries: `name` is its `task.name`, `display`
   its `%s` form, which is what the failure handler uses.
   */
  datatype Task = Task(name: string, display: string)

  /** The statsd calls a handler makes and the state it leaves. */
  datatype Step = Step(state: State, events: seq<Metric>)

  /** `task.name` on the `None` default raises `AttributeError`. */
  datatype HandlerError = MissingTask

  /**
   The run handlers read `task.name` before anything else, so when they raise
   they have changed no table and made no statsd call.
   */
  datatype Outcome = Handled(step: Step) | Raised(error: HandlerError)

  /** `'%s' % task`, with `None` rendered as Python does. */
  function TaskText(task: Option<Task>): (text: string)
    ensures task.Some? ==> text == task.value.display
    ensures task.None? ==> text == "None"
  {
    match task
    case Some(t) => t.display
    case None => "None"
  }

  /** `on_before_task_publish`: remembers when the sender started publishing. */
  function BeforeTaskPublish(s: State, sender: string, now: int): (r: Step)
    ensures r.events == []
    ensures sender in r.state.publishStarts && r.state.publishStarts[sender] == now
    ensures r.state.publishStarts - {sender} == s.publishStarts - {sender}
    ensures r.state.runStarts == s.runStarts
  {
    Step(s.(publishStarts := Put(s.publishStarts, sender, now)), [])
  }

  /**
   `on_after_task_publish`: counts the publish, consumes the sender's start
   time and, when that start time is truthy, records how long publishing took.
   */
  function AfterTaskPublish(s: State, sender: string, now: int): (r: Step)
    ensures 1 <= |r.events| <= 2
    ensures r.events[0] == Incr(Name(sender, SentSuffix))
    ensures |r.events| == 2 <==> sender in s.publishStarts && s.publishStarts[sender] != 0
    ensures |r.events| == 2 ==>
      r.events[1] == Timing(Name(sender, PublishRuntimeSuffix), ElapsedMs(s.publishStarts[sender], now))
    ensures sender !in r.state.publishStarts
    ensures r.state.publishStarts - {sender} == s.publishStarts - {sender}
    ensures r.state.runStarts == s.runStarts
  {
    var sent := [Incr(Name(sender, SentSuffix))];
    var (start, rest) := Pop(s.publishStarts, sender);
    var events :=
      if Truthy(start)
      then sent + [Timing(Name(sender, PublishRuntimeSuffix), ElapsedMs(start.value, now))]
      else sent;
    Step(s.(publishStarts := rest), events)
  }

  /** `on_task_prerun`: counts the start and remembers when this task id began running. */
  function TaskPrerun(s: State, taskId: string, task: Option<Task>, now: int): (r: Outcome)
    ensures r.Raised? <==> task.None?
    ensures r.Handled? ==> r.step.events == [Incr(Name(task.value.name, StartSuffix))]
    ensures r.Handled? ==> taskId in r.step.state.runStarts && r.step.state.runStarts[taskId] == now
    ensures r.Handled? ==> r.step.state.runStarts - {taskId} == s.runStarts - {taskId}
    ensures r.Handled? ==> r.step.state.publishStarts == s.publishStarts
  {
    match task
    case None => Raised(MissingTask)
    case Some(t) =>
      Handled(Step(s.(runStarts := Put(s.runStarts, taskId, now)), [Incr(Name(t.name, StartSuffix))]))
  }

  /**
   `on_task_postrun`: counts the completion, consumes the task id's start time
   and, when that start time is truthy, records how long the task ran.
   */
  function TaskPostrun(s: State, taskId: string, task: Option<Task>, now: int): (r: Outcome)
    ensures r.Raised? <==> task.None?
    ensures r.Handled? ==> 1 <= |r.step.events| <= 2
    ensures r.Handled? ==> r.step.events[0] == Incr(Name(task.value.name, DoneSuffix))
    ensures r.Handled? ==>
      (|r.step.events| == 2 <==> taskId in s.runStarts && s.runStarts[taskId] != 0)
    ensures r.Handled? && |r.step.events| == 2 ==>
      r.step.events[1] == Timing(Name(task.value.name, RuntimeSuffix), ElapsedMs(s.runStarts[taskId], now))
    ensures r.Handled? ==> taskId !in r.step.state.runStarts
    ensures r.Handled? ==> r.step.state.runStarts - {taskId} == s.runStarts - {taskId}
    ensures r.Handled? ==> r.step.state.publishStarts == s.publishStarts
  {
    match task
    case None => Raised(MissingTask)
    case Some(t) =>
      var done := [Incr(Name(t.name, DoneSuffix))];
      var (start, rest) := Pop(s.runStarts, taskId);
      var events :=
        if Truthy(start)
        then done + [Timing(Name(t.name, RuntimeSuffix), ElapsedMs(start.value, now))]
        else done;
      Handled(Step(s.(runStarts := rest), events))
  }

  /**
   `on_task_failure`: counts the failure under the task's `%s` form and touches
   neither table, so a pending start time of the failed task stays behind.
   */
  function TaskFailure(s: State, task: Option<Task>): (r: Step)
    ensures r.state == s
    ensures |r.events| == 1 && r.events[0].Incr?
    ensures KeyOf(r.events[0].name, FailureSuffix) == Some(TaskText(task))
  {
    KeyOfName(TaskText(task), FailureSuffix);
    Step(s, [Incr(Name(TaskText(task), FailureSuffix))])
  }
}
