/**
 Correlation tables: the two module-level dictionaries of the Celery observer
 map a key (a task type or a task id) to the clock reading at which the
 paired lifecycle event began. This module gives them the two operations the
 handlers use: item assignment and `pop` with a default.
 */
module Tables {

  datatype Option<+T> = None | Some(value: T)

  /** Keys are opaque strings; clock readings are integer microseconds since the epoch. */
  type Table = map<string, int>

  /** `table[key] = value`: the key now holds `value`, every other entry is kept. */
  function Put(table: Table, key: string, value: int): (r: Table)
    ensures key in r && r[key] == value
    ensures r - {key} == table - {key}
    ensures r.Keys == table.Keys + {key}
  {
    table[key := value]
  }

  /**
   `table.pop(key, False)`: the stored value when the key is present (and the
   key is gone afterwards), `None` standing for the `False` default otherwise.
   */
  function Pop(table: Table, key: string): (r: (Option<int>, Table))
    ensures r.0.Some? <==> key in table
    ensures key in table ==> r.0.value == table[key]
    ensures key !in r.1
    ensures r.1 == table - {key}
  {
    if key in table then (Some(table[key]), table - {key}) else (None, table)
  }

  /**
   Python truthiness of the popped start time: the `False` default is falsy,
   and so is a stored start time of exactly 0.
   */
  function Truthy(start: Option<int>): (t: bool)
    ensures start == None ==> !t
    ensures start == Some(0) ==> !t
    ensures start.Some? && start.value != 0 ==> t
  {
    start.Some? && start.value != 0
  }

  /** Popping a key just assigned gives back the assigned value and removes the key. */
  lemma PopAfterPut(table: Table, key: string, value: int)
    ensures Pop(Put(table, key, value), key) == (Some(value), table - {key})
  {
  }

  /** If the key was absent before the assignment, popping it restores the table exactly. */
  lemma PopAfterPutRestores(table: Table, key: string, value: int)
    requires key !in table
    ensures Pop(Put(table, key, value), key).1 == table
  {
  }

  /** Popping a key changes the table's size by one exactly when the key was present. */
  lemma PopSize(table: Table, key: string)
    ensures |Pop(table, key).1| == if key in table then |table| - 1 else |table|
  {
  }
}
