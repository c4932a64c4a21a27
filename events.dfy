/**
 * The change notifications the file watcher delivers and the debounce rule
 * the change handler of yml_config.go applies to them. Times are whole
 * milliseconds read from a monotonic clock.
 */
module Events {

  /** The debounce window: a notification within it of the last accepted one is an echo. */
  const DebounceMillis: int := 10

  /** An fsnotify operation: a bit set over the five watched event kinds. */
  datatype Op = Op(create: bool, write: bool, remove: bool, rename: bool, chmod: bool)

  /** No flag set. */
  const NoOp: Op := Op(false, false, false, false, false)

  /** A plain content write and nothing else. */
  const WriteOnly: Op := Op(false, true, false, false, false)

  /**
   * fsnotify's `Op.String()`: the names of the set flags, in the order
   * CREATE, REMOVE, WRITE, RENAME, CHMOD, joined with `|`.
   */
  function OpString(op: Op): (r: string)
    ensures r == "" <==> op == NoOp
  {
    var buf := (if op.create then "|CREATE" else "")
      + (if op.remove then "|REMOVE" else "")
      + (if op.write then "|WRITE" else "")
      + (if op.rename then "|RENAME" else "")
      + (if op.chmod then "|CHMOD" else "");
    if |buf| == 0 then "" else buf[1..]
  }

  /** The string comparison of the handler accepts exactly the plain writes. */
  lemma OpStringIsWrite(op: Op)
    ensures OpString(op) == "WRITE" <==> op == WriteOnly
  {
    var n := (if op.create then 7 else 0) + (if op.remove then 7 else 0) + (if op.write then 6 else 0)
      + (if op.rename then 7 else 0) + (if op.chmod then 6 else 0);
    assert n == 0 || |OpString(op)| == n - 1;
    if op == Op(false, false, false, false, true) {
      assert OpString(op) == "CHMOD";
    }
  }

  /**
   * The handler's filter: at least the debounce window has passed since
   * the last accepted change, and the event is a plain write.
   */
  predicate Accepts(last: int, now: int, op: Op): (b: bool)
    ensures b <==> now - last >= DebounceMillis && op == WriteOnly
  {
    OpStringIsWrite(op);
    now - last >= DebounceMillis && OpString(op) == "WRITE"
  }

  /**
   * One delivered notification: the clock reading the handler compares,
   * the later reading it stores after purging, and the operation.
   */
  datatype Event = Event(now: int, later: int, op: Op)

  predicate Monotone(e: Event)
  {
    e.now <= e.later
  }

  /** The check-time readings of the events the handler accepts, starting from `last`. */
  function Accepted(last: int, events: seq<Event>): (times: seq<int>)
    decreases |events|
  {
    if events == [] then []
    else if Accepts(last, events[0].now, events[0].op) then [events[0].now] + Accepted(events[0].later, events[1..])
    else Accepted(last, events[1..])
  }

  /** The stored time of the last accepted change after the events. */
  function LastAfter(last: int, events: seq<Event>): (t: int)
    decreases |events|
  {
    if events == [] then last
    else if Accepts(last, events[0].now, events[0].op) then LastAfter(events[0].later, events[1..])
    else LastAfter(last, events[1..])
  }

  /**
   * Every accepted event comes at least the window after the starting time,
   * and any two accepted events are at least the window apart.
   */
  lemma {:induction false} AcceptedSpaced(last: int, events: seq<Event>)
    requires forall i :: 0 <= i < |events| ==> Monotone(events[i])
    ensures forall i :: 0 <= i < |Accepted(last, events)| ==> Accepted(last, events)[i] >= last + DebounceMillis
    ensures forall i, j :: 0 <= i < j < |Accepted(last, events)| ==>
      Accepted(last, events)[j] - Accepted(last, events)[i] >= DebounceMillis
    decreases |events|
  {
    if events != [] {
      var e := events[0];
      var rest := events[1..];
      assert forall i :: 0 <= i < |rest| ==> rest[i] == events[i + 1];
      if Accepts(last, e.now, e.op) {
        AcceptedSpaced(e.later, rest);
        assert Monotone(e);
        var acc := Accepted(last, events);
        assert acc == [e.now] + Accepted(e.later, rest);
        forall i | 0 <= i < |acc|
          ensures acc[i] >= last + DebounceMillis
        {
          if i > 0 {
            assert acc[i] == Accepted(e.later, rest)[i - 1];
          }
        }
        forall i, j | 0 <= i < j < |acc|
          ensures acc[j] - acc[i] >= DebounceMillis
        {
          assert acc[j] == Accepted(e.later, rest)[j - 1];
          if i > 0 {
            assert acc[i] == Accepted(e.later, rest)[i - 1];
          }
        }
      } else {
        AcceptedSpaced(last, rest);
      }
    }
  }

  /** An echo: a second notification within the window of an accepted one is dropped. */
  lemma EchoSuppressed(last: int, e1: Event, e2: Event)
    requires Monotone(e1) && Accepts(last, e1.now, e1.op)
    requires e2.now - e1.now < DebounceMillis
    ensures Accepted(last, [e1, e2]) == [e1.now]
  {
    assert [e1, e2][1..] == [e2];
    assert !Accepts(e1.later, e2.now, e2.op);
    assert Accepted(e1.later, [e2]) == Accepted(e1.later, []);
  }

  /** Two plain writes each at least the window after the previous stamp both purge. */
  lemma SpacedWritesBothAccepted(last: int, e1: Event, e2: Event)
    requires e1.op == WriteOnly && e2.op == WriteOnly
    requires e1.now - last >= DebounceMillis && e2.now - e1.later >= DebounceMillis
    ensures Accepted(last, [e1, e2]) == [e1.now, e2.now]
  {
    OpStringIsWrite(WriteOnly);
    assert [e1, e2][1..] == [e2];
    assert Accepted(e1.later, [e2]) == [e2.now] + Accepted(e2.later, []);
  }

  /** A notification that is not a plain write never purges, however late it comes. */
  lemma NonWriteIgnored(last: int, events: seq<Event>)
    requires forall i :: 0 <= i < |events| ==> events[i].op != WriteOnly
    ensures Accepted(last, events) == [] && LastAfter(last, events) == last
    decreases |events|
  {
    if events != [] {
      OpStringIsWrite(events[0].op);
      NonWriteIgnored(last, events[1..]);
    }
  }
}
