/**
 The metrics the observer sends to the statsd client, the naming convention
 `celery.<key><suffix>` they follow, and the conversion of two clock readings
 into an elapsed time in whole milliseconds.
 */
module Metrics {

  import opened Tables

  /** One call on the statsd client: `statsd.incr(name)` or `statsd.timing(name, ms)`. */
  datatype Metric = Incr(name: string) | Timing(name: string, ms: int)

  const Prefix: string := "celery."

  const SentSuffix: string := ".sent"
  const PublishRuntimeSuffix: string := ".publish.runtime"
  const StartSuffix: string := ".start"
  const DoneSuffix: string := ".done"
  const RuntimeSuffix: string := ".runtime"
  const FailureSuffix: string := ".failure"

  /**
   The metric name `'celery.%s<suffix>' % key`; `KeyOf` below reads the key
   back, and the two lemmas after it show the pair are mutually inverse.
   */
  function Name(key: string, suffix: string): (n: string)
    ensures |n| == |Prefix| + |key| + |suffix|
    ensures KeyOf(n, suffix) == Some(key)
  {
    Prefix + key + suffix
  }

  /** Reads the key back out of a metric name with the given suffix, if it has that shape. */
  function KeyOf(name: string, suffix: string): (r: Option<string>)
  {
    if |name| >= |Prefix| + |suffix|
       && name[..|Prefix|] == Prefix
       && name[|name| - |suffix|..] == suffix
    then Some(name[|Prefix|..|name| - |suffix|])
    else None
  }

  /** Reading the key back out of a constructed name gives the key that built it. */
  lemma KeyOfName(key: string, suffix: string)
    ensures KeyOf(Name(key, suffix), suffix) == Some(key)
  {
  }

  /** Every name that parses back to a key is the name built from that key. */
  lemma NameOfKeyOf(name: string, suffix: string)
    requires KeyOf(name, suffix).Some?
    ensures Name(KeyOf(name, suffix).value, suffix) == name
  {
  }

  /** For one suffix, distinct keys give distinct metric names. */
  lemma NameInjective(key1: string, key2: string, suffix: string)
    requires Name(key1, suffix) == Name(key2, suffix)
    ensures key1 == key2
  {
    KeyOfName(key1, suffix);
    KeyOfName(key2, suffix);
  }

  /**
   Across suffixes the convention is ambiguous: the run-time timing of a task
   whose name ends in `.publish` is the same metric as the publish-time timing
   of the task type without that ending.
   */
  lemma RuntimeNamesOverlap(sender: string)
    ensures Name(sender + ".publish", RuntimeSuffix) == Name(sender, PublishRuntimeSuffix)
  {
  }

  /** The metric names of the `email_task` scenario, spelled out. */
  lemma EmailTaskNames()
    ensures Name("email_task", SentSuffix) == "celery.email_task.sent"
    ensures Name("email_task", PublishRuntimeSuffix) == "celery.email_task.publish.runtime"
  {
  }

  /** The metric names of the `resize_image` scenario, spelled out. */
  lemma ResizeImageNames()
    ensures Name("resize_image", StartSuffix) == "celery.resize_image.start"
    ensures Name("resize_image", DoneSuffix) == "celery.resize_image.done"
    ensures Name("resize_image", RuntimeSuffix) == "celery.resize_image.runtime"
  {
  }

  /**
   `int((now - start) * 1000)` for clock readings in microseconds: the elapsed
   time in milliseconds, truncated toward zero as Python's `int` does (also when
   the clock went backwards).
   */
  function ElapsedMs(start: int, now: int): (ms: int)
    ensures now - start >= 0 ==> 0 <= ms && ms * 1000 <= now - start < ms * 1000 + 1000
    ensures now - start < 0 ==> ms <= 0 && ms * 1000 - 1000 < now - start <= ms * 1000
  {
    var elapsed := now - start;
    if elapsed >= 0 then elapsed / 1000 else -((-elapsed) / 1000)
  }

  /** Truncation toward zero is odd: reversing the two readings negates the result. */
  lemma ElapsedMsAntisymmetric(start: int, now: int)
    ensures ElapsedMs(now, start) == -ElapsedMs(start, now)
  {
  }

  /** A later reading never gives a shorter elapsed time. */
  lemma ElapsedMsMonotonic(start: int, now1: int, now2: int)
    requires now1 <= now2
    ensures ElapsedMs(start, now1) <= ElapsedMs(start, now2)
  {
  }
}
