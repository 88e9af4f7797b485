/** The application-wide diagnostic log: a newest-first buffer capped at
    1000 entries, with listeners notified of every new entry. */
module LogService {
  import opened Outcomes
  import opened JsList

  datatype LogLevel = DEBUG | INFO | WARN | ERROR

  /** One log record; `timestamp` is the ISO text of the clock reading taken
      when it was logged, `data` an opaque serialised payload. */
  datatype LogEntry = LogEntry(
    timestamp: string,
    level: LogLevel,
    category: string,
    message: string,
    data: Option<string>)

  /** The identity of a registered listener function. Two registrations of
      the same function share one identity. */
  type Listener = nat

  /** One call `listener(entry)`. */
  datatype Delivery = Delivery(listener: Listener, entry: LogEntry)

  /** The handle `addListener` returns; calling it unregisters `listener`. */
  datatype Disposer = Disposer(listener: Listener)

  const MaxLogs: nat := 1000
  const DefaultRecentCount: int := 50

  /** The buffer after `logs.unshift(entry)` followed by a `pop` when the
      buffer has grown past its capacity. */
  function Unshift(logs: seq<LogEntry>, entry: LogEntry): (r: seq<LogEntry>)
    requires |logs| <= MaxLogs
    ensures |r| == if |logs| + 1 <= MaxLogs then |logs| + 1 else MaxLogs
    ensures r[0] == entry
    ensures r[1..] == logs[..|r| - 1]
    ensures |logs| < MaxLogs ==> r[1..] == logs
  {
    var grown := [entry] + logs;
    if |grown| > MaxLogs then grown[..|grown| - 1] else grown
  }

  /** The calls made by `listeners.forEach(l => l(entry))`: one per
      registered listener, in registration order. */
  function FanOut(listeners: seq<Listener>, entry: LogEntry): (r: seq<Delivery>)
    ensures |r| == |listeners|
    ensures forall i :: 0 <= i < |r| ==> r[i] == Delivery(listeners[i], entry)
  {
    seq(|listeners|, i requires 0 <= i < |listeners| => Delivery(listeners[i], entry))
  }

  /** The listener list after a disposer for `l` has run. */
  function Without(listeners: seq<Listener>, l: Listener): seq<Listener> {
    Filter(listeners, (x: Listener) => x != l)
  }

  /** The buffer after logging `entries` one after the other, oldest first. */
  function LogAll(logs: seq<LogEntry>, entries: seq<LogEntry>): (r: seq<LogEntry>)
    requires |logs| <= MaxLogs
    ensures |r| <= MaxLogs
    decreases |entries|
  {
    if entries == [] then logs else LogAll(Unshift(logs, entries[0]), entries[1..])
  }

  function Reversed(s: seq<LogEntry>): (r: seq<LogEntry>)
    ensures |r| == |s|
    ensures forall i :: 0 <= i < |s| ==> r[i] == s[|s| - 1 - i]
  {
    if s == [] then [] else Reversed(s[1..]) + [s[0]]
  }

  function Min(a: int, b: int): int {
    if a < b then a else b
  }

  /** Logging a run of entries leaves the newest 1000 of everything seen so
      far, newest first: the buffer behaves as a ring buffer that drops its
      oldest entries. */
  lemma {:induction false} LogAllKeepsNewest(logs: seq<LogEntry>, entries: seq<LogEntry>)
    requires |logs| <= MaxLogs
    ensures LogAll(logs, entries)
      == (Reversed(entries) + logs)[..Min(MaxLogs, |entries| + |logs|)]
    decreases |entries|
  {
    if entries != [] {
      var e := entries[0];
      var tail := entries[1..];
      var u := Unshift(logs, e);
      var n := Min(MaxLogs, |entries| + |logs|);
      LogAllKeepsNewest(u, tail);
      assert Min(MaxLogs, |tail| + |u|) == n;
      UnshiftPrefix(Reversed(tail), logs, e, n);
      assert Reversed(entries) == Reversed(tail) + [e];
    }
  }

  /** Before the cut, what follows a newly unshifted entry is the buffer as
      it was. */
  lemma UnshiftPrefix(front: seq<LogEntry>, logs: seq<LogEntry>, e: LogEntry, n: nat)
    requires |logs| <= MaxLogs && n <= |front| + |Unshift(logs, e)|
    ensures (front + Unshift(logs, e))[..n] == (front + [e] + logs)[..n]
  {
    var u := Unshift(logs, e);
    assert u == [e] + logs[..|u| - 1];
    assert front + u == (front + [e]) + logs[..|u| - 1];
    PrefixOfAppend(front + [e], logs, |u| - 1, n);
  }

  /** Cutting the second part short does not change a prefix that ends
      before the cut. */
  lemma PrefixOfAppend(a: seq<LogEntry>, b: seq<LogEntry>, m: nat, n: nat)
    requires m <= |b| && n <= |a| + m
    ensures (a + b[..m])[..n] == (a + b)[..n]
  {
    assert forall i :: 0 <= i < n ==> (a + b[..m])[i] == (a + b)[i];
  }

  /** Once more than 1000 entries have been logged after the first one, the
      first one no longer has a position in the buffer: every position
      holds one of the 1000 latest entries. */
  lemma FirstEntryEvicted(entries: seq<LogEntry>)
    requires |entries| > MaxLogs
    ensures |LogAll([], entries)| == MaxLogs
    ensures forall i :: 0 <= i < MaxLogs ==> LogAll([], entries)[i] == entries[|entries| - 1 - i]
  {
    LogAllKeepsNewest([], entries);
  }

  /** A disposer removes every registration of its own listener, and only
      those, leaving the others in their order. */
  lemma DisposeOnlyItsOwn(listeners: seq<Listener>, l: Listener)
    ensures l !in Without(listeners, l)
    ensures forall x :: x != l ==> multiset(Without(listeners, l))[x] == multiset(listeners)[x]
    ensures IsSubsequence(Without(listeners, l), listeners)
    ensures forall e: LogEntry, i :: 0 <= i < |Without(listeners, l)| ==> FanOut(Without(listeners, l), e)[i].listener != l
  {
    FilterSpec(listeners, (x: Listener) => x != l);
  }

  class LogService {
    /** The buffer, newest entry first. */
    var logs: seq<LogEntry>
    var listeners: seq<Listener>
    /** Every listener call made so far, oldest first. */
    var delivered: seq<Delivery>

    ghost predicate Valid()
      reads this
    {
      |logs| <= MaxLogs
    }

    constructor ()
      ensures Valid()
      ensures logs == [] && listeners == [] && delivered == []
    {
      logs, listeners, delivered := [], [], [];
    }

    /** `log(level, category, message, data)` at clock reading `timestamp`. */
    method Log(level: LogLevel, category: string, message: string, data: Option<string>, timestamp: string)
      requires Valid()
      modifies this
      ensures Valid()
      ensures logs == Unshift(old(logs), LogEntry(timestamp, level, category, message, data))
      ensures listeners == old(listeners)
      ensures delivered == old(delivered) + FanOut(listeners, LogEntry(timestamp, level, category, message, data))
    {
      var entry := LogEntry(timestamp, level, category, message, data);
      logs := [entry] + logs;
      if |logs| > MaxLogs {
        logs := logs[..|logs| - 1];
      }
      var i := 0;
      while i < |listeners|
        invariant 0 <= i <= |listeners|
        invariant logs == Unshift(old(logs), entry) && listeners == old(listeners)
        invariant delivered == old(delivered) + FanOut(listeners[..i], entry)
      {
        delivered := delivered + [Delivery(listeners[i], entry)];
        i := i + 1;
      }
      assert listeners[..i] == listeners;
    }

    /** `addListener(listener)`: registers it and hands back its disposer. */
    method AddListener(l: Listener) returns (d: Disposer)
      modifies this
      ensures listeners == old(listeners) + [l]
      ensures d.listener == l
      ensures logs == old(logs) && delivered == old(delivered)
    {
      listeners := listeners + [l];
      d := Disposer(l);
    }

    /** Calling a disposer returned by `addListener`. */
    method Dispose(d: Disposer)
      modifies this
      ensures listeners == Without(old(listeners), d.listener)
      ensures logs == old(logs) && delivered == old(delivered)
    {
      listeners := Filter(listeners, (x: Listener) => x != d.listener);
    }

    /** `getRecentLogs(count)`: the newest `count` entries (a negative count
        leaves that many off the old end, as `slice` does). */
    function RecentLogs(count: int): (r: seq<LogEntry>)
      reads this
      ensures |r| <= |logs| && r == logs[..|r|]
      ensures 0 <= count ==> |r| == Min(count, |logs|)
    {
      logs[..SliceEnd(count, |logs|)]
    }

    /** `getLogsByLevel(level)`. */
    function LogsByLevel(level: LogLevel): (r: seq<LogEntry>)
      reads this
      ensures forall e :: e in r <==> e in logs && e.level == level
      ensures forall e :: multiset(r)[e] == if e.level == level then multiset(logs)[e] else 0
      ensures IsSubsequence(r, logs)
    {
      FilterSpec(logs, (e: LogEntry) => e.level == level);
      Filter(logs, (e: LogEntry) => e.level == level)
    }

    /** `getLogsByCategory(category)`. */
    function LogsByCategory(category: string): (r: seq<LogEntry>)
      reads this
      ensures forall e :: e in r <==> e in logs && e.category == category
      ensures forall e :: multiset(r)[e] == if e.category == category then multiset(logs)[e] else 0
      ensures IsSubsequence(r, logs)
    {
      FilterSpec(logs, (e: LogEntry) => e.category == category);
      Filter(logs, (e: LogEntry) => e.category == category)
    }

    /** `clearLogs()` at clock reading `timestamp`: the buffer empties, and
        the announcement goes to the listeners without being stored. */
    method ClearLogs(timestamp: string)
      modifies this
      ensures Valid()
      ensures logs == []
      ensures listeners == old(listeners)
      ensures delivered == old(delivered)
        + FanOut(listeners, LogEntry(timestamp, INFO, "LogService", "Logs cleared", None))
    {
      logs := [];
      var entry := LogEntry(timestamp, INFO, "LogService", "Logs cleared", None);
      var i := 0;
      while i < |listeners|
        invariant 0 <= i <= |listeners|
        invariant logs == [] && listeners == old(listeners)
        invariant delivered == old(delivered) + FanOut(listeners[..i], entry)
      {
        delivered := delivered + [Delivery(listeners[i], entry)];
        i := i + 1;
      }
      assert listeners[..i] == listeners;
    }
  }
}
