/**
 * The accumulate-until-timeout read loop of hid.py (lines 97-115).
 *
 * Every call of `device.read` on the IN endpoint is one scripted ReadEvent.
 * The loop appends the bytes of each successful read to `data`, charges every
 * USB error to the budget `tryouts` (initially 5), stops successfully on a
 * timeout once something has been read, and raises once the budget is negative.
 * The real loop is `while 1`; here it also stops when the script of events runs out.
 */
module ReadLoop {
  import opened Common

  /** What one `device.read` call did (hid.py:104, 109-111). */
  datatype ReadEvent =
    | Data(bytes: seq<byte>)  // the read returned these bytes
    | Timeout                 // a USBError whose args are ('Operation timed out',)
    | OtherError              // any other USBError

  /** How the loop ended. */
  datatype ReadResult =
    | Ok(data: seq<byte>)                           // the `break` at hid.py:112
    | Exhausted(timedOut: bool, partial: seq<byte>) // the raise at hid.py:115, with `data` so far
    | ScriptEnded                                   // no event was left, the loop had not ended

  /** The initial value of `tryouts` (hid.py:98). */
  const InitialTryouts: int := 5

  function Payload(e: ReadEvent): seq<byte>
  {
    if e.Data? then e.bytes else []
  }

  /** The bytes of every successful read in `s`, concatenated in order. */
  function Concat(s: seq<ReadEvent>): seq<byte>
  {
    if s == [] then [] else Payload(s[0]) + Concat(s[1..])
  }

  /** The number of USB errors, timeouts or not, in `s`. */
  function Errors(s: seq<ReadEvent>): nat
  {
    if s == [] then 0 else (if s[0].Data? then 0 else 1) + Errors(s[1..])
  }

  /** The value of `tryouts` after the events `s`. */
  function Tryouts(s: seq<ReadEvent>): int
  {
    InitialTryouts - Errors(s)
  }

  /** The value of `readed` after the events `s`: some read has succeeded. */
  predicate Readed(s: seq<ReadEvent>)
  {
    exists j :: 0 <= j < |s| && s[j].Data?
  }

  /** Event k is a timeout that arrives after a successful read: the `break` of hid.py:111-112. */
  predicate BreaksAt(events: seq<ReadEvent>, k: nat)
    requires k < |events|
  {
    events[k].Timeout? && Readed(events[..k])
  }

  /** Event k is an error that leaves the budget negative (hid.py:110, 113). */
  predicate ExhaustsAt(events: seq<ReadEvent>, k: nat)
    requires k < |events|
  {
    !events[k].Data? && Tryouts(events[..k + 1]) < 0
  }

  /** The loop ends at event k. */
  predicate StopsAt(events: seq<ReadEvent>, k: nat)
    requires k < |events|
  {
    BreaksAt(events, k) || ExhaustsAt(events, k)
  }

  /** The first index at or after `from` at which the loop ends, if any. */
  function FirstStop(events: seq<ReadEvent>, from: nat): (r: Option<nat>)
    requires from <= |events|
    ensures r.Some? ==> from <= r.value < |events| && StopsAt(events, r.value)
    ensures r.Some? ==> forall j :: from <= j < r.value ==> !StopsAt(events, j)
    ensures r.None? ==> forall j :: from <= j < |events| ==> !StopsAt(events, j)
    decreases |events| - from
  {
    if from == |events| then None
    else if StopsAt(events, from) then Some(from)
    else FirstStop(events, from + 1)
  }

  /**
   * The result of the loop on `events`: at the first stop, success with every
   * payload read before it when it is a break, else exhaustion.
   */
  function Outcome(events: seq<ReadEvent>): ReadResult
  {
    match FirstStop(events, 0)
    case None => ScriptEnded
    case Some(k) =>
      if BreaksAt(events, k) then Ok(Concat(events[..k]))
      else Exhausted(events[k].Timeout?, Concat(events[..k]))
  }

  /** How many times the loop calls `device.read` on `events`. */
  function ReadsMade(events: seq<ReadEvent>): nat
  {
    match FirstStop(events, 0)
    case None => |events|
    case Some(k) => k + 1
  }

  /** hid.py:97-115, statement by statement. Returns the result and the number of reads made. */
  method ReadUntilTimeout(events: seq<ReadEvent>) returns (r: ReadResult, calls: nat)
    ensures r == Outcome(events)
    ensures calls == ReadsMade(events) && calls <= |events|
  {
    var data: seq<byte> := [];
    var tryouts := InitialTryouts;
    var readed := false;
    var i := 0;
    while i < |events|
      invariant 0 <= i <= |events|
      invariant data == Concat(events[..i])
      invariant tryouts == Tryouts(events[..i])
      invariant readed == Readed(events[..i])
      invariant forall j :: 0 <= j < i ==> !StopsAt(events, j)
    {
      var e := events[i];
      assert events[..i + 1] == events[..i] + [e];
      ConcatAppend(events[..i], [e]);
      ErrorsAppend(events[..i], [e]);
      ReadedAppend(events[..i], [e]);
      if e.Data? {
        data := data + e.bytes;
        readed := true;
      } else {
        tryouts := tryouts - 1;
        if e.Timeout? && readed {
          FirstStopIs(events, i);
          return Ok(data), i + 1;
        }
        if tryouts < 0 {
          FirstStopIs(events, i);
          return Exhausted(e.Timeout?, data), i + 1;
        }
      }
      i := i + 1;
    }
    r, calls := ScriptEnded, i;
  }

  /** The loop ends first at k exactly when k is a stop and nothing before it is. */
  lemma FirstStopIs(events: seq<ReadEvent>, k: nat)
    requires k < |events| && StopsAt(events, k)
    requires forall j :: 0 <= j < k ==> !StopsAt(events, j)
    ensures FirstStop(events, 0) == Some(k)
  {
  }

  /** Successful reads are appended after the previous ones (hid.py:104). */
  lemma {:induction false} ConcatAppend(s: seq<ReadEvent>, t: seq<ReadEvent>)
    ensures Concat(s + t) == Concat(s) + Concat(t)
  {
    if s == [] {
      assert s + t == t;
    } else {
      assert (s + t)[1..] == s[1..] + t;
      ConcatAppend(s[1..], t);
    }
  }

  lemma {:induction false} ErrorsAppend(s: seq<ReadEvent>, t: seq<ReadEvent>)
    ensures Errors(s + t) == Errors(s) + Errors(t)
  {
    if s == [] {
      assert s + t == t;
    } else {
      assert (s + t)[1..] == s[1..] + t;
      ErrorsAppend(s[1..], t);
    }
  }

  lemma ReadedAppend(s: seq<ReadEvent>, t: seq<ReadEvent>)
    ensures Readed(s + t) == (Readed(s) || Readed(t))
  {
    if Readed(s + t) {
      var j :| 0 <= j < |s + t| && (s + t)[j].Data?;
      if j >= |s| { assert t[j - |s|].Data?; }
    }
    if Readed(s) {
      var j :| 0 <= j < |s| && s[j].Data?;
      assert (s + t)[j].Data?;
    }
    if Readed(t) {
      var j :| 0 <= j < |t| && t[j].Data?;
      assert (s + t)[|s| + j].Data?;
    }
  }

  /**
   * Each USB error, timeout or not, takes exactly one from `tryouts`, and a
   * successful read leaves it alone (hid.py:104, 110).
   */
  lemma TryoutsStep(s: seq<ReadEvent>, e: ReadEvent)
    ensures Tryouts(s + [e]) == Tryouts(s) - (if e.Data? then 0 else 1)
  {
    ErrorsAppend(s, [e]);
  }

  /** `tryouts` starts at 5 and never increases (hid.py:98, 110). */
  lemma TryoutsNeverIncrease(s: seq<ReadEvent>, t: seq<ReadEvent>)
    ensures Tryouts([]) == InitialTryouts
    ensures Tryouts(s + t) <= Tryouts(s)
  {
    ErrorsAppend(s, t);
  }

  /** `readed` is false until the first successful read and stays true afterwards (hid.py:99, 107). */
  lemma ReadedStep(s: seq<ReadEvent>, e: ReadEvent, t: seq<ReadEvent>)
    ensures !Readed([])
    ensures Readed(s + [e]) == (Readed(s) || e.Data?)
    ensures Readed(s) ==> Readed(s + t)
  {
    ReadedAppend(s, [e]);
    ReadedAppend(s, t);
    assert [e][0] == e;
  }

  // Properties of the loop

  /** Before the loop has stopped, the budget is never negative. */
  lemma {:induction false} BudgetBeforeStop(events: seq<ReadEvent>, i: nat)
    requires i <= |events|
    requires forall j :: 0 <= j < i ==> !StopsAt(events, j)
    ensures Tryouts(events[..i]) >= 0
  {
    if i > 0 {
      assert events[..i] == events[..i - 1] + [events[i - 1]];
      TryoutsStep(events[..i - 1], events[i - 1]);
      if events[i - 1].Data? {
        BudgetBeforeStop(events, i - 1);
      } else {
        assert !StopsAt(events, i - 1);
      }
    }
  }

  /** At most six USB errors are ever seen by the loop (hid.py:98, 110-115). */
  lemma AtMostSixErrors(events: seq<ReadEvent>)
    ensures Errors(events[..ReadsMade(events)]) <= InitialTryouts + 1
  {
    match FirstStop(events, 0)
    case None =>
      BudgetBeforeStop(events, |events|);
    case Some(k) =>
      BudgetBeforeStop(events, k);
      assert events[..k + 1] == events[..k] + [events[k]];
      TryoutsStep(events[..k], events[k]);
  }

  /**
   * The loop fails only on an error that does not break, and exactly on the
   * sixth error: a timeout fails only when nothing has been read yet.
   */
  lemma ExhaustedOnSixthError(events: seq<ReadEvent>)
    requires Outcome(events).Exhausted?
    ensures var n := ReadsMade(events);
      && 0 < n <= |events|
      && !events[n - 1].Data?
      && Errors(events[..n]) == InitialTryouts + 1
      && (events[n - 1].Timeout? ==> !Readed(events[..n - 1]))
      && Outcome(events).timedOut == events[n - 1].Timeout?
      && Outcome(events).partial == Concat(events[..n - 1])
  {
    AtMostSixErrors(events);
  }

  /**
   * A successful result is the concatenation of every payload read before
   * the terminating timeout, and that timeout followed a successful read.
   */
  lemma SuccessEndsOnTimeout(events: seq<ReadEvent>)
    requires Outcome(events).Ok?
    ensures var n := ReadsMade(events);
      && 0 < n <= |events|
      && events[n - 1].Timeout?
      && Readed(events[..n - 1])
      && Outcome(events).data == Concat(events[..n - 1])
      && Errors(events[..n]) <= InitialTryouts + 1
  {
    AtMostSixErrors(events);
  }

  /**
   * A timeout that arrives after a successful read ends the loop successfully,
   * whatever is left of the budget: the break is tested before the budget
   * (hid.py:111-113).
   */
  lemma TimeoutAfterDataSucceeds(events: seq<ReadEvent>, k: nat)
    requires k < |events| && events[k].Timeout? && Readed(events[..k])
    requires forall j :: 0 <= j < k ==> !StopsAt(events, j)
    ensures Outcome(events) == Ok(Concat(events[..k]))
    ensures ReadsMade(events) == k + 1
  {
    FirstStopIs(events, k);
  }

  /**
   * A non-timeout error never ends the loop successfully, even after data has
   * been read: it only consumes budget, and the loop fails on it exactly when it
   * is the sixth error (hid.py:110-115).
   */
  lemma OtherErrorOnlyConsumesBudget(events: seq<ReadEvent>, k: nat)
    requires k < |events| && events[k].OtherError?
    requires forall j :: 0 <= j < k ==> !StopsAt(events, j)
    ensures StopsAt(events, k) <==> Errors(events[..k + 1]) == InitialTryouts + 1
    ensures StopsAt(events, k) ==> Outcome(events) == Exhausted(false, Concat(events[..k]))
    ensures !StopsAt(events, k) ==> Tryouts(events[..k + 1]) == Tryouts(events[..k]) - 1 >= 0
  {
    BudgetBeforeStop(events, k);
    assert events[..k + 1] == events[..k] + [events[k]];
    TryoutsStep(events[..k], events[k]);
    if StopsAt(events, k) {
      FirstStopIs(events, k);
    }
  }

  /** A run of errors without any data: every one counts, and none is a break. */
  lemma {:induction false} ErrorsWithoutData(s: seq<ReadEvent>)
    requires forall j :: 0 <= j < |s| ==> !s[j].Data?
    ensures Errors(s) == |s| && !Readed(s)
  {
    if s != [] {
      ErrorsWithoutData(s[1..]);
    }
  }

  /**
   * Errors with no successful read before them exhaust the loop on the sixth
   * one, so six reads are made although the budget is 5 (hid.py:98, 110-115).
   */
  lemma ErrorsWithoutDataExhaust(events: seq<ReadEvent>)
    requires |events| >= InitialTryouts + 1
    requires forall j :: 0 <= j <= InitialTryouts ==> !events[j].Data?
    ensures Outcome(events) == Exhausted(events[InitialTryouts].Timeout?, [])
    ensures ReadsMade(events) == InitialTryouts + 1
  {
    forall j | 0 <= j < InitialTryouts
      ensures !StopsAt(events, j)
    {
      ErrorsWithoutData(events[..j + 1]);
      ErrorsWithoutData(events[..j]);
    }
    var k := InitialTryouts;
    ErrorsWithoutData(events[..k + 1]);
    ErrorsWithoutData(events[..k]);
    ConcatWithoutData(events[..k]);
    FirstStopIs(events, k);
  }

  lemma {:induction false} ConcatWithoutData(s: seq<ReadEvent>)
    requires forall j :: 0 <= j < |s| ==> !s[j].Data?
    ensures Concat(s) == []
  {
    if s != [] {
      ConcatWithoutData(s[1..]);
    }
  }

  /** One Data event per payload, in order. */
  function DataEvents(rs: seq<seq<byte>>): (es: seq<ReadEvent>)
    ensures |es| == |rs| && forall j :: 0 <= j < |rs| ==> es[j] == Data(rs[j])
  {
    seq(|rs|, j requires 0 <= j < |rs| => Data(rs[j]))
  }

  /** The payloads concatenated in order. */
  function Flatten(rs: seq<seq<byte>>): seq<byte>
  {
    if rs == [] then [] else rs[0] + Flatten(rs[1..])
  }

  lemma {:induction false} ConcatDataEvents(rs: seq<seq<byte>>)
    ensures Concat(DataEvents(rs)) == Flatten(rs)
  {
    if rs != [] {
      assert DataEvents(rs)[1..] == DataEvents(rs[1..]);
      ConcatDataEvents(rs[1..]);
    }
  }

  /**
   * Successful reads R1, ..., Rn followed by a timeout: the loop succeeds with
   * R1 + ... + Rn, whatever follows (hid.py:104, 111-112).
   */
  lemma ReadsAccumulateInOrder(rs: seq<seq<byte>>, rest: seq<ReadEvent>)
    requires |rs| > 0
    ensures Outcome(DataEvents(rs) + [Timeout] + rest) == Ok(Flatten(rs))
    ensures ReadsMade(DataEvents(rs) + [Timeout] + rest) == |rs| + 1
  {
    var events := DataEvents(rs) + [Timeout] + rest;
    var n := |rs|;
    assert events[..n] == DataEvents(rs);
    assert events[0].Data?;
    assert Readed(events[..n]);
    TimeoutAfterDataSucceeds(events, n);
    ConcatDataEvents(rs);
  }

  /** Two reads then a timeout give the two payloads concatenated. */
  lemma TwoReadsThenTimeout(r1: seq<byte>, r2: seq<byte>)
    ensures Outcome([Data(r1), Data(r2), Timeout]) == Ok(r1 + r2)
  {
    ReadsAccumulateInOrder([r1, r2], []);
    assert DataEvents([r1, r2]) + [Timeout] + [] == [Data(r1), Data(r2), Timeout];
    assert Flatten([r1, r2]) == r1 + r2 by {
      assert [r1, r2][1..] == [r2];
      assert [r2][1..] == [];
      assert Flatten([r2]) == r2 + Flatten([]);
    }
  }

  /**
   * After one read and five other errors the budget is 0; a timeout then leaves
   * it at -1 and still succeeds, while a sixth other error fails.
   */
  lemma BreakTestedBeforeBudget(d: seq<byte>)
    ensures var s := [Data(d), OtherError, OtherError, OtherError, OtherError, OtherError];
      && Tryouts(s + [Timeout]) == -1
      && Outcome(s + [Timeout]) == Ok(d)
      && Outcome(s + [OtherError]) == Exhausted(false, d)
  {
    var s := [Data(d), OtherError, OtherError, OtherError, OtherError, OtherError];
    var late := s + [Timeout];
    var sixth := s + [OtherError];
    assert late[..6] == s && sixth[..6] == s;
    assert Readed(s) by { assert s[0].Data?; }
    assert Concat(s) == d by {
      ConcatWithoutData(s[1..]);
    }
    forall j | 0 <= j < 6
      ensures !StopsAt(late, j) && !StopsAt(sixth, j)
    {
      assert late[..j + 1] == sixth[..j + 1] == s[..j + 1];
      if j > 0 {
        assert s[..j + 1] == [Data(d)] + s[1..j + 1];
        ErrorsAppend([Data(d)], s[1..j + 1]);
        ErrorsWithoutData(s[1..j + 1]);
      }
    }
    ErrorsAppend([Data(d)], s[1..]);
    ErrorsWithoutData(s[1..]);
    assert s == [Data(d)] + s[1..];
    ErrorsAppend(s, [Timeout]);
    ErrorsAppend(s, [OtherError]);
    TimeoutAfterDataSucceeds(late, 6);
    OtherErrorOnlyConsumesBudget(sixth, 6);
  }
}
