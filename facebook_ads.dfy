/** The ads manager's activity log: newest entry first, at most twenty
    entries, each numbered from a counter that only grows. */
module FacebookAds {

  datatype LogType = Success | Error | Info

  datatype LogEntry = LogEntry(id: int, message: string, timestamp: string, kind: LogType)

  const MaxEntries: nat := 20

  /** `[entry, ...prev].slice(0, 20)` */
  function Prepended(logs: seq<LogEntry>, entry: LogEntry): (r: seq<LogEntry>)
    ensures |r| == if |logs| < MaxEntries then |logs| + 1 else MaxEntries
    ensures r[0] == entry
    // the survivors are the newest old entries, in their old order
    ensures r[1..] == logs[..|r| - 1]
  {
    var all := [entry] + logs;
    if |all| <= MaxEntries then all else all[..MaxEntries]
  }

  /** Entry ids strictly decrease from the newest entry to the oldest. */
  predicate NewestFirst(logs: seq<LogEntry>) {
    forall i, j :: 0 <= i < j < |logs| ==> logs[i].id > logs[j].id
  }

  /** Prepending an entry whose id exceeds every id keeps the order, and so
      every id stays distinct (the rendered list keys on them). */
  lemma PrependedNewestFirst(logs: seq<LogEntry>, entry: LogEntry)
    requires NewestFirst(logs)
    requires forall i :: 0 <= i < |logs| ==> logs[i].id < entry.id
    ensures NewestFirst(Prepended(logs, entry))
  {
    var r := Prepended(logs, entry);
    forall i, j | 0 <= i < j < |r| ensures r[i].id > r[j].id {
      assert r[j] == logs[j - 1];
      if i > 0 {
        assert r[i] == logs[i - 1];
      }
    }
  }

  class ActivityLog {
    var logs: seq<LogEntry>
    /** `logCounter`: the id the next entry gets. */
    var counter: int

    ghost predicate Valid()
      reads this
    {
      0 < |logs| <= MaxEntries
      && NewestFirst(logs)
      && forall i :: 0 <= i < |logs| ==> 0 < logs[i].id < counter
    }

    /** The initial state: one "System ready" entry numbered 1, counter 2. */
    constructor (now: string)
      ensures Valid()
      ensures logs == [LogEntry(1, "System ready", now, Info)]
      ensures counter == 2
    {
      logs := [LogEntry(1, "System ready", now, Info)];
      counter := 2;
    }

    /** `addLog`: the new entry takes the counter as its id and goes first;
        the oldest entries beyond twenty are dropped; the counter grows by one. */
    method AddLog(message: string, kind: LogType, now: string)
      requires Valid()
      modifies this
      ensures Valid()
      ensures logs == Prepended(old(logs), LogEntry(old(counter), message, now, kind))
      ensures counter == old(counter) + 1
    {
      assert 0 < logs[0].id < counter;
      var entry := LogEntry(counter, message, now, kind);
      PrependedNewestFirst(logs, entry);
      var next := Prepended(logs, entry);
      forall i | 0 < i < |next| ensures 0 < next[i].id < counter {
        assert next[i] == next[1..][i - 1] == logs[i - 1];
      }
      logs := next;
      counter := counter + 1;
    }
  }
}
