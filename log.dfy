/** The cheating log: an append-only sequence of rows. Each frame of the main
    loop appends a batch of rows (possibly none), all stamped with the frame's
    time. */
module CheatingLog {
  import opened Common
  import opened Detection

  /** Log rows in time order. */
  ghost predicate TimeOrdered(log: seq<LogRecord>) {
    forall a, b :: 0 <= a < b < |log| ==> log[a].at <= log[b].at
  }

  /** No log row is later than `t`. */
  ghost predicate NoLaterThan(log: seq<LogRecord>, t: Time) {
    forall a :: 0 <= a < |log| ==> log[a].at <= t
  }

  /** Every row carries the time `t`. */
  ghost predicate StampedAt(rows: seq<LogRecord>, t: Time) {
    forall r :: r in rows ==> r.at == t
  }

  /** The log that held `base`, after the first `i` batches were appended in order. */
  function Appended(base: seq<LogRecord>, batches: seq<seq<LogRecord>>, i: nat): seq<LogRecord>
    requires i <= |batches|
  {
    if i == 0 then base else Appended(base, batches, i - 1) + batches[i - 1]
  }

  /** Appending never touches what the log already held: the result is `base`
      followed by exactly the appended rows. */
  lemma {:induction false} AppendedKeepsBase(base: seq<LogRecord>, batches: seq<seq<LogRecord>>, i: nat)
    requires i <= |batches|
    ensures Appended(base, batches, i) == base + Appended([], batches, i)
  {
    if i > 0 {
      AppendedKeepsBase(base, batches, i - 1);
    }
  }

  /** Appending rows stamped `t'` to a time-ordered log whose rows are no
      later than `t <= t'` keeps it time-ordered, with no row later than `t'`. */
  lemma AppendKeepsOrder(prefix: seq<LogRecord>, last: seq<LogRecord>, t: Time, t': Time)
    requires TimeOrdered(prefix) && NoLaterThan(prefix, t)
    requires t <= t' && StampedAt(last, t')
    ensures TimeOrdered(prefix + last) && NoLaterThan(prefix + last, t')
  {
    forall b | 0 <= b < |last|
      ensures last[b].at == t'
    {
      assert last[b] in last;
    }
  }

  /** Batches stamped with times that never decrease append, in order, to a
      time-ordered log with no row later than the last batch's time. */
  lemma {:induction false} AppendedInTimeOrder(batches: seq<seq<LogRecord>>, times: seq<Time>, i: nat)
    requires i <= |batches| == |times|
    requires forall k :: 0 <= k < |batches| ==> StampedAt(batches[k], times[k])
    requires forall j, k :: 0 <= j <= k < |times| ==> times[j] <= times[k]
    ensures TimeOrdered(Appended([], batches, i))
    ensures i > 0 ==> NoLaterThan(Appended([], batches, i), times[i - 1])
  {
    if i > 0 {
      AppendedInTimeOrder(batches, times, i - 1);
      var t := if i > 1 then times[i - 2] else times[i - 1];
      AppendKeepsOrder(Appended([], batches, i - 1), batches[i - 1], t, times[i - 1]);
    }
  }
}
