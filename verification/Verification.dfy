/** The poll loop that waits for the expected power state (engine/verify.go). */
module Verification {
  import opened Text
  import opened Records
  import opened PowerStates

  /** One `ReadPowerState` call: what it returned and how long it took. */
  datatype Read = Read(answer: Answer, took: nat)

  datatype Answer = State(power: string) | ReadError

  datatype VerifyError = Unsupported | ContextEnded | ReadFailed | TimedOut

  class Verifier {
    const window: int
    const pollInterval: int

    ghost predicate Valid() {
      0 < pollInterval <= window
    }

    /** `NewVerifier`, with the defaults of 90 s and 2 s. */
    constructor (requestedWindow: int, requestedPoll: int)
      ensures Valid()
      ensures window == if requestedWindow > 0 then requestedWindow else 90_000_000_000
      ensures 0 < requestedPoll <= window ==> pollInterval == requestedPoll
      ensures requestedPoll > window ==> pollInterval == window
    {
      var w, p := requestedWindow, requestedPoll;
      if w <= 0 {
        w := 90_000_000_000;
      }
      if p <= 0 {
        p := 2_000_000_000;
      }
      if p > w {
        p := w;
      }
      window, pollInterval := w, p;
    }

    /** `Verify`. `read(i)` is the i-th read, counted from 0; the caller's context ends at `parentEnd`, if at all;
        `tie(i)` says which channel `select` takes when the deadline and the i-th poll timer are ready together. */
    method Verify(op: Operation, read: nat -> Read, parentEnd: Option<nat>, tie: nat -> bool)
      returns (last: string, err: Option<VerifyError>, n: nat)
      requires Valid()
      ensures n <= MostReads(window, pollInterval)
      ensures n == 0 <==> op.Other?
      ensures n == 0 ==> last == "" && err == Some(Unsupported)
      ensures err.None? <==> n > 0 && Match(op, read(n - 1).answer)
      ensures n > 0 ==> Polled(op, read, last, err, n)
      ensures n > 0 ==>
                (err == Some(ContextEnded) <==>
                  && read(n - 1).answer.ReadError?
                  && Over(window, parentEnd, Start(read, pollInterval, n - 1) + read(n - 1).took))
      ensures err == Some(TimedOut) ==> Over(window, parentEnd, Start(read, pollInterval, n))
    {
      hide TrimSpace, ToLower, EqualFold, Reaches, Told, ComponentState, Polled, Match, Mismatch, LastState;
      var expected := ExpectedState(op);
      ReachesMeans(op, "");
      if expected.None? {
        return "", Some(Unsupported), 0;
      }
      var deadline := Deadline(window, parentEnd);
      var clock := 0;
      last, n := "", 0;
      NotRead(op, read);
      while true
        invariant n * pollInterval <= clock == Start(read, pollInterval, n) && (n > 0 ==> clock <= deadline)
        invariant Missed(op, read, n) && last == LastState(read, n)
        decreases window - n * pollInterval
      {
        FitsWindow(n, pollInterval, window);
        OneMoreRead(op, read, n);
        var r := read(n);
        n := n + 1;
        clock := clock + r.took;
        match r.answer
        case ReadError =>
          if clock >= deadline {
            return last, Some(ContextEnded), n;
          }
          return last, Some(ReadFailed), n;
        case State(power) =>
          last := TrimSpace(power);
          ReachesMeans(op, power);
          if EqualFold(last, expected.value) {
            return last, None, n;
          }
          clock := clock + pollInterval;
          if deadline < clock || (deadline == clock && tie(n - 1)) {
            return last, Some(TimedOut), n;
          }
      }
    }
  }

  /** The most reads that fit into the window. */
  function MostReads(window: int, poll: int): int
    requires poll > 0
  {
    window / poll + 1
  }

  /** All reads but the last mismatched, and the last one is what the result says. */
  ghost predicate Polled(op: Operation, read: nat -> Read, last: string, err: Option<VerifyError>, n: nat)
    requires n > 0
  {
    && (forall i :: 0 <= i < n - 1 ==> Mismatch(op, read(i).answer))
    && last == LastState(read, n)
    && (err.None? <==> Match(op, read(n - 1).answer))
    && (err == Some(TimedOut) <==> Mismatch(op, read(n - 1).answer))
  }

  ghost predicate Missed(op: Operation, read: nat -> Read, n: nat) {
    forall i :: 0 <= i < n ==> Mismatch(op, read(i).answer)
  }

  lemma NotRead(op: Operation, read: nat -> Read)
    ensures Missed(op, read, 0) && LastState(read, 0) == ""
  {
  }

  /** What one more read tells. */
  lemma OneMoreRead(op: Operation, read: nat -> Read, n: nat)
    requires !op.Other? && Missed(op, read, n)
    ensures Match(op, read(n).answer) <==> read(n).answer.State? && Reaches(op, read(n).answer.power)
    ensures match read(n).answer
            case ReadError =>
              && LastState(read, n + 1) == LastState(read, n)
              && Polled(op, read, LastState(read, n), Some(ContextEnded), n + 1)
              && Polled(op, read, LastState(read, n), Some(ReadFailed), n + 1)
            case State(power) =>
              && LastState(read, n + 1) == TrimSpace(power)
              && (Reaches(op, power) ==>
                    Polled(op, read, TrimSpace(power), None, n + 1))
              && (!Reaches(op, power) ==>
                    Missed(op, read, n + 1) && Polled(op, read, TrimSpace(power), Some(TimedOut), n + 1))
  {
    hide TrimSpace, Reaches;
  }

  function Deadline(window: int, parentEnd: Option<nat>): int {
    if parentEnd.Some? && parentEnd.value < window then parentEnd.value else window
  }

  /** At time `clock` the window has passed, or the caller's context has ended. */
  predicate Over(window: int, parentEnd: Option<nat>, clock: int) {
    clock >= window || (parentEnd.Some? && clock >= parentEnd.value)
  }

  /** When read `n` begins: the earlier reads took their time and each was followed by a whole poll interval. */
  function Start(read: nat -> Read, poll: int, n: nat): int {
    if n == 0 then 0 else Start(read, poll, n - 1) + read(n - 1).took + poll
  }

  /** The read found the state in which `op` must end. */
  ghost predicate Match(op: Operation, a: Answer) {
    a.State? && Reaches(op, a.power)
  }

  /** It found another one. */
  ghost predicate Mismatch(op: Operation, a: Answer) {
    !op.Other? && a.State? && !Reaches(op, a.power)
  }

  /** The last state read successfully among the first `n` reads, trimmed; empty if there is none. */
  function LastState(read: nat -> Read, n: nat): string {
    if n == 0 then ""
    else if read(n - 1).answer.State? then TrimSpace(read(n - 1).answer.power)
    else LastState(read, n - 1)
  }

  lemma FitsWindow(n: nat, poll: int, window: int)
    requires poll > 0 && n * poll <= window
    ensures n + 1 <= window / poll + 1
    ensures (n + 1) * poll > n * poll
  {
    assert (n + 1) * poll == n * poll + poll;
    if n > window / poll {
      Product(window / poll + 1, n, poll);
    }
  }

  lemma Product(a: int, b: int, c: int)
    requires a <= b && c >= 0
    ensures a * c <= b * c
  {
  }
}
