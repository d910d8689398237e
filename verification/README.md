# django-statsd Celery observer, modelled in Dafny

`django_statsd/celery.py` connects five handlers to Celery's task lifecycle
signals. They count publishes, starts, completions and failures on the statsd
client. They also time two intervals: from `before_task_publish` to
`after_task_publish` for a task type, and from `task_prerun` to
`task_postrun` for a task id. The start times are kept in two module-level
dictionaries.

The model treats the observer as a state machine:

- `Observer.State` holds the two dictionaries as `map<string, int>`:
  `publishStarts` (`_task_publish_start_times`, keyed by sender) and
  `runStarts` (`_task_start_times`, keyed by task id).
- Each handler is a pure function. It takes the state, a clock reading and
  the signal payload. It returns the next state and the statsd calls made, in
  order, as `Metrics.Metric` values (`Incr(name)` or `Timing(name, ms)`).
- The clock is an integer count of microseconds. The elapsed milliseconds
  are `(now - start) / 1000`, truncated toward zero. This matches Python's
  `int(...)` applied to the float product, also when the clock went backwards.
- `dict.pop(key, False)` becomes `Tables.Pop`, which returns an `Option`.
  A timing is sent only for a truthy start (`Tables.Truthy`). A missing entry
  is falsy, and so is a stored start of exactly 0.
- `task.name` on the `None` default raises `AttributeError` in the prerun and
  postrun handlers. This is the first thing either handler does, so the model
  returns `Raised(MissingTask)` with no effect. `'%s' % None` in the failure
  handler does not raise; it gives the key `None`.
- `Lifecycle.Run` feeds a trace of signals through the handlers.

Files:

- `tables.dfy`: dictionary assignment and pop-with-default.
- `metrics.dfy`: metric names and elapsed-time conversion.
- `observer.dfy`: the five handlers.
- `lifecycle.dfy`: signal dispatch, traces, and the lemmas relating handlers.

Three behaviours of the code are easy to miss, and the model keeps them:

- A stored start of `0.0` is falsy, so a run started at clock reading 0
  sends no `runtime` sample (`Lifecycle.ZeroStartSuppressesRuntime`,
  `Lifecycle.ResizeImageScenario`).
- `int(...)` truncates toward zero rather than flooring, so an interval of
  -1.5 ms gives -1, not -2 (`Metrics.ElapsedMs`,
  `Metrics.ElapsedMsAntisymmetric`).
- `task.name` on a `None` task raises `AttributeError` in prerun and postrun
  before any effect (`Lifecycle.MissingTaskChangesNothing`).

## Model

| member | source | states |
|---|---|---|
| `Tables.Put` | django_statsd/celery.py:13 | item assignment stores the value under the key, keeps every other entry, and adds at most that key to the domain |
| `Tables.Pop` | django_statsd/celery.py:24 | `pop(key, False)` yields the stored value exactly when the key was present and removes only that key; otherwise it yields the default and leaves the table as it was |
| `Tables.Truthy` | django_statsd/celery.py:25-50 | both `if start_time:` tests are false for the `False` default and for a stored `0`, true for any other stored start |
| `Tables.PopAfterPut` | django_statsd/celery.py:13-24 | popping a key just assigned returns the assigned value and leaves the rest of the table |
| `Tables.PopAfterPutRestores` | django_statsd/celery.py:38-49 | when the key was absent before the assignment, assigning and then popping restores the original table |
| `Metrics.Name` | django_statsd/celery.py:21 | `'celery.%s<suffix>' % key` is exactly prefix, key and suffix in length, and the key can be read back out of it |
| `Metrics.KeyOfName` | django_statsd/celery.py:21 | the key can be read back from `'celery.%s<suffix>'`: parsing a built name returns the key |
| `Metrics.NameOfKeyOf` | django_statsd/celery.py:21 | the other direction: every name that parses under a suffix is the name built from its parsed key |
| `Metrics.NameInjective` | django_statsd/celery.py:21 | for one suffix, distinct keys never share a metric name |
| `Metrics.RuntimeNamesOverlap` | django_statsd/celery.py:27-52 | across suffixes the convention is ambiguous: the runtime metric of a task named `X.publish` is the publish-runtime metric of sender `X` |
| `Metrics.EmailTaskNames` | django_statsd/celery.py:21-27 | the `email_task` publish metric names spelled out character for character |
| `Metrics.ResizeImageNames` | django_statsd/celery.py:35-52 | the `resize_image` run metric names spelled out character for character |
| `Metrics.ElapsedMs` | django_statsd/celery.py:26 | `int((now - start) * 1000)` is the elapsed time truncated toward zero: non-negative and within one millisecond below the true interval when time moved forward; non-positive and within one millisecond above it when time moved back |
| `Metrics.ElapsedMsAntisymmetric` | django_statsd/celery.py:26 | swapping the two readings negates the elapsed milliseconds, which floor division would not do |
| `Metrics.ElapsedMsMonotonic` | django_statsd/celery.py:51 | a later end reading never gives a shorter duration |
| `Observer.BeforeTaskPublish` | django_statsd/celery.py:9-13 | sends nothing; the sender's publish start becomes `now`, overwriting any earlier one; other publish entries and the whole run table are unchanged |
| `Observer.AfterTaskPublish` | django_statsd/celery.py:16-27 | first sends exactly one `celery.<sender>.sent` counter. A second event, `celery.<sender>.publish.runtime` with the elapsed ms, is sent iff a non-zero start was stored for the sender. The sender's entry is gone afterwards; every other entry of both tables is unchanged |
| `Observer.TaskPrerun` | django_statsd/celery.py:30-38 | raises iff the task is missing. Otherwise it sends exactly `celery.<task.name>.start`, sets the task id's run start to `now`, and keeps all other run entries and the publish table |
| `Observer.TaskPostrun` | django_statsd/celery.py:41-52 | raises iff the task is missing. Otherwise it sends `celery.<task.name>.done` first, then `celery.<task.name>.runtime` iff a non-zero start was stored for the id. It removes that id and keeps everything else |
| `Observer.TaskText` | django_statsd/celery.py:60 | `'%s' % task` is the task's string form, and `None` renders as `None` |
| `Observer.TaskFailure` | django_statsd/celery.py:55-60 | sends exactly one counter whose key is the task's `%s` form, not `task.name`; both tables are left exactly as they were |
| `Lifecycle.Dispatch` | django_statsd/celery.py:69-73 | a delivery raises exactly when it is a prerun or postrun without a task. Otherwise each signal has its own handler's effect: before-publish records the sender's start at the delivery's clock and sends nothing; after-publish sends `sent` first and consumes the sender's start; prerun sends only `start` and records the id's start; postrun sends `done` first and consumes the id's start; failure sends one counter on the task's `%s` form and changes no table |
| `Lifecycle.Deliver` | django_statsd/celery.py:35-46 | a prerun or postrun without a task leaves the state as it was and sends nothing, since the `AttributeError` comes before any effect; every other delivery has its handler's effect |
| `Lifecycle.RunAppend` | django_statsd/celery.py:5-6 | the tables persist between signals: running two traces in turn equals running their concatenation, metrics concatenated |
| `Lifecycle.DeliverCounters` | django_statsd/celery.py:16-60 | one delivery sends exactly one counter, unless it is a before-publish or it raised; then it sends none |
| `Lifecycle.RunCounters` | django_statsd/celery.py:16-60 | over any trace, the number of counters sent equals the number of counting signals delivered |
| `Lifecycle.DeliverTimings` | django_statsd/celery.py:24-52 | one delivery's timing samples plus the start times it leaves pending never exceed those pending before, plus one if it records a start |
| `Lifecycle.RunTimings` | django_statsd/celery.py:24-52 | over any trace, timing samples sent plus start times still pending are at most the initially pending ones plus the before-publish and prerun signals delivered, so every sample consumes a recorded start |
| `Lifecycle.PublishPair` | django_statsd/celery.py:13-27 | before-publish at a non-zero `t0` then after-publish at `t1` sends exactly `sent` then `publish.runtime` of `ElapsedMs(t0, t1)`, which is non-negative when `t0 <= t1`; only the sender's publish entry is removed |
| `Lifecycle.PublishWithoutStart` | django_statsd/celery.py:24-25 | after-publish with no recorded start sends only `sent` and changes nothing |
| `Lifecycle.OverlappingPublishes` | django_statsd/celery.py:13-27 | with two overlapping publishes of one sender, the first after-publish is timed from the later start and the second sends no sample |
| `Lifecycle.RunPair` | django_statsd/celery.py:35-52 | for an id with no pending start, prerun at a non-zero `t0` then postrun at `t1` sends exactly `start`, `done`, then `runtime` of `ElapsedMs(t0, t1)`, which is non-negative when `t0 <= t1`; the state ends equal to the initial one |
| `Lifecycle.PostrunWithoutStart` | django_statsd/celery.py:49-50 | postrun with no recorded start sends only `done` and changes nothing |
| `Lifecycle.ZeroStartSuppressesRuntime` | django_statsd/celery.py:49-50 | a run started at clock reading 0 sends `start` and `done` but no runtime sample, because `0` is falsy |
| `Lifecycle.TwoPreruns` | django_statsd/celery.py:35-38 | two preruns send both `start` counters and record both start times |
| `Lifecycle.TwoPostruns` | django_statsd/celery.py:46-52 | two postruns of distinct pending ids each send `done` and a sample measured from their own start, and remove both ids |
| `Lifecycle.InterleavedRuns` | django_statsd/celery.py:38-52 | interleaved runs with distinct ids are each timed from their own prerun, and the tables end as they began |
| `Lifecycle.FailureOrphansStart` | django_statsd/celery.py:55-60 | after prerun and failure the task id's start is still pending, the publish table is untouched, and a later postrun with that id is timed from the original start |
| `Lifecycle.MissingTaskChangesNothing` | django_statsd/celery.py:35-46 | prerun or postrun without a task object sends no metric and leaves the state unchanged |
| `Lifecycle.BeforePublishLastWriteWins` | django_statsd/celery.py:13 | recording a publish start twice is the same as recording only the second |
| `Lifecycle.EmailTaskScenario` | django_statsd/celery.py:13-27 | publishing `email_task` from 100.000 s to 100.250 s sends `celery.email_task.sent`, then `celery.email_task.publish.runtime` = 250 |
| `Lifecycle.ResizeImageScenario` | django_statsd/celery.py:35-52 | running `resize_image` from 1.000 s to 2.500 s sends `start`, `done` and `runtime` = 1500; started at 0.000 s, no runtime sample is sent |

## Left out

- `register_celery_events` (django_statsd/celery.py:63-73): its `ImportError` guard and its `connect` calls belong to Celery, which is not part of this model. `Lifecycle.Dispatch` models only the signal-to-handler mapping.
- The statsd client: each `incr` or `timing` call becomes an element of the returned metric sequence. Delivery, sampling and client errors are I/O.
- `time.time()`: each handler gets the clock reading as an integer number of microseconds. Float rounding and sub-microsecond precision are not modelled.
- Python `%s` formatting of arbitrary objects: senders, task ids, task names and the task's string form are opaque strings. In the source, the publish table is keyed by the sender object while the metric uses its string form. The model identifies the two, so distinct senders with equal string forms would share an entry here.
- Concurrency: the dictionaries are shared without locks. Races between threads, including overlapping publishes of one sender from different threads, are not modelled. `Lifecycle.OverlappingPublishes` covers only the sequential overlap.
- The payload's other keyword arguments (`**kwargs`), which the handlers ignore.
- Exception propagation: how Celery's dispatcher treats the `AttributeError` raised by a run handler. The model records only that nothing happened before the raise.
