/**
 * The two control-flow shapes the driver's lifecycle methods share: a run of
 * calls where the first error returns at once, and polling a machine's
 * state until it reaches a target, fails, or a deadline passes.
 */
module Orchestration {
  import opened Wrappers
  import opened Errors
  import opened Api
  import Rancher

  /** One call and the error it would return. */
  datatype Step = Step(call: Call, err: Option<Error>)

  /** The calls made, in order, and the error finally returned (None for nil). */
  datatype Run = Run(calls: seq<Call>, err: Option<Error>)

  /**
   * Make the calls in order, returning the first error (Go's repeated
   * `if err != nil { return err }`).
   */
  function FailFast(steps: seq<Step>): (r: Run)
    ensures |r.calls| <= |steps|
  {
    if steps == [] then Run([], None)
    else if steps[0].err.Some? then Run([steps[0].call], steps[0].err)
    else
      var rest := FailFast(steps[1..]);
      Run([steps[0].call] + rest.calls, rest.err)
  }

  /** Calls made in three parts: grouping the last two first changes nothing. */
  lemma AppendAssoc<T>(a: seq<T>, b: seq<T>, c: seq<T>)
    ensures (a + b) + c == a + (b + c)
  {
  }

  /** The calls of a list of steps. */
  function CallsOf(steps: seq<Step>): (calls: seq<Call>)
    ensures |calls| == |steps|
    ensures forall i :: 0 <= i < |steps| ==> calls[i] == steps[i].call
  {
    if steps == [] then [] else [steps[0].call] + CallsOf(steps[1..])
  }

  /**
   * The calls made are a prefix of the steps; the run fails iff some step
   * fails; a failing run stops right after its first failing step and
   * returns that step's error.
   */
  lemma {:induction false} FailFastShape(steps: seq<Step>)
    ensures var r := FailFast(steps);
      && r.calls == CallsOf(steps[..|r.calls|])
      && (r.err.None? <==> forall i :: 0 <= i < |steps| ==> steps[i].err.None?)
      && (r.err.None? ==> |r.calls| == |steps|)
      && (r.err.Some? ==> 0 < |r.calls| && r.err == steps[|r.calls| - 1].err)
      && (forall i :: 0 <= i < |r.calls| - 1 ==> steps[i].err.None?)
  {
    if steps != [] {
      var r := FailFast(steps);
      if steps[0].err.None? {
        FailFastShape(steps[1..]);
        var rest := FailFast(steps[1..]);
        assert steps[..|r.calls|][1..] == steps[1..][..|rest.calls|];
        forall i | 0 <= i < |r.calls| - 1 ensures steps[i].err.None? {
          if i > 0 {
            assert steps[i] == steps[1..][i - 1];
          }
        }
        if rest.err.None? {
          forall i | 0 <= i < |steps| ensures steps[i].err.None? {
            if i > 0 {
              assert steps[i] == steps[1..][i - 1];
            }
          }
        }
      } else {
        assert steps[..1] == [steps[0]];
      }
    }
  }

  /**
   * Running two lists of steps one after the other: the second runs only
   * when the first succeeds.
   */
  lemma {:induction false} FailFastAppend(a: seq<Step>, b: seq<Step>)
    ensures FailFast(a + b) ==
      if FailFast(a).err.Some? then FailFast(a)
      else Run(CallsOf(a) + FailFast(b).calls, FailFast(b).err)
  {
    if a == [] {
      assert a + b == b;
    } else {
      var ab := a + b;
      assert ab[0] == a[0];
      assert ab[1..] == a[1..] + b;
      if a[0].err.None? {
        FailFastAppend(a[1..], b);
        assert CallsOf(a) == [a[0].call] + CallsOf(a[1..]);
      }
    }
  }

  /** If step k is the first to fail, the run makes exactly k + 1 calls and returns its error. */
  lemma {:induction false} FailFastAt(steps: seq<Step>, k: nat)
    requires k < |steps| && steps[k].err.Some?
    requires forall i :: 0 <= i < k ==> steps[i].err.None?
    ensures FailFast(steps) == Run(CallsOf(steps[..k + 1]), steps[k].err)
  {
    if k == 0 {
      assert steps[..1] == [steps[0]];
    } else {
      FailFastAt(steps[1..], k - 1);
      assert steps[..k + 1][1..] == steps[1..][..k];
    }
  }

  /** The calls of one more step. */
  lemma CallsOfPrefix(steps: seq<Step>, i: nat)
    requires i < |steps|
    ensures CallsOf(steps[..i + 1]) == CallsOf(steps[..i]) + [steps[i].call]
  {
    assert CallsOf(steps[..i + 1]) == CallsOf(steps[..i]) + [steps[i].call];
  }

  /** A trace that grows by the call of one more step. */
  lemma TraceGrows(t0: seq<Call>, steps: seq<Step>, i: nat)
    requires i < |steps|
    ensures t0 + CallsOf(steps[..i]) + [steps[i].call] == t0 + CallsOf(steps[..i + 1])
  {
    CallsOfPrefix(steps, i);
    AppendAssoc(t0, CallsOf(steps[..i]), [steps[i].call]);
  }

  /** Three steps, one after the other: the run stops at the first of them that fails. */
  lemma CallsOfThree(steps: seq<Step>)
    requires |steps| == 3
    ensures FailFast(steps) ==
      if steps[0].err.Some? then Run([steps[0].call], steps[0].err)
      else if steps[1].err.Some? then Run([steps[0].call, steps[1].call], steps[1].err)
      else Run([steps[0].call, steps[1].call, steps[2].call], steps[2].err)
    ensures CallsOf(steps) == [steps[0].call, steps[1].call, steps[2].call]
  {
    var last := steps[2..];
    assert last[1..] == [];
    assert FailFast(last) == Run([steps[2].call], steps[2].err);
    assert CallsOf(last) == [steps[2].call];
    assert steps[1..][1..] == last;
  }

  /** A run whose steps all succeed makes every call and returns nil. */
  lemma {:induction false} FailFastAllSucceed(steps: seq<Step>)
    requires forall i :: 0 <= i < |steps| ==> steps[i].err.None?
    ensures FailFast(steps) == Run(CallsOf(steps), None)
  {
    if steps != [] {
      FailFastAllSucceed(steps[1..]);
    }
  }

  /** `n` rounds of the same calls. */
  function Repeat<T>(round: seq<T>, n: nat): (r: seq<T>)
    ensures r == [] <==> n == 0 || round == []
    ensures forall x :: x in r ==> x in round
  {
    if n == 0 then [] else Repeat(round, n - 1) + round
  }

  /** One more round after `n` rounds, all of it after `prefix`. */
  lemma RepeatStep<T>(prefix: seq<T>, round: seq<T>, n: nat)
    ensures (prefix + Repeat(round, n)) + round == prefix + Repeat(round, n + 1)
  {
    AppendAssoc(prefix, Repeat(round, n), round);
  }

  /** `n` rounds of one call are `n` copies of that call and nothing else. */
  lemma {:induction false} RepeatOne<T>(x: T, n: nat)
    ensures |Repeat([x], n)| == n
    ensures forall y :: y in Repeat([x], n) ==> y == x
  {
    if n > 0 {
      RepeatOne(x, n - 1);
    }
  }

  // ---------------------------------------------------------------------------
  // Waiting for a state.

  datatype Outcome = Observed | TimedOut | Aborted(error: Error)

  /** How many times the state was read, and how the wait ended. */
  datatype WaitResult = WaitResult(polls: nat, outcome: Outcome)

  /** A state read that neither failed nor showed the target. */
  predicate Continues(answer: Result<Rancher.MachineState>, target: Rancher.MachineState)
  {
    answer.Ok? && answer.value != target
  }

  /**
   * Poll `poll[k]`, `poll[k + 1]`, ... (the answers of successive state
   * reads) until one shows `target` or fails. Before each read the deadline
   * is checked: once `deadline` reads have been made the wait times out.
   */
  function WaitFrom(poll: seq<Result<Rancher.MachineState>>, target: Rancher.MachineState, k: nat, deadline: nat): (w: WaitResult)
    requires k <= deadline <= |poll|
    ensures k <= w.polls <= deadline
    decreases deadline - k
  {
    if k == deadline then WaitResult(k, TimedOut)
    else
      match poll[k]
      case Err(e) => WaitResult(k + 1, Aborted(e))
      case Ok(s) =>
        if s == target then WaitResult(k + 1, Observed)
        else WaitFrom(poll, target, k + 1, deadline)
  }

  /**
   * How a wait ends: every read before the last one neither failed nor
   * showed the target; a timeout comes after exactly `deadline` reads, the
   * last of them (if any) showing another state; an observed or aborted
   * wait ends with a read that showed the target or failed with the error
   * returned.
   */
  lemma {:induction false} WaitShape(poll: seq<Result<Rancher.MachineState>>, target: Rancher.MachineState, k: nat, deadline: nat)
    requires k <= deadline <= |poll|
    ensures var w := WaitFrom(poll, target, k, deadline);
      && (forall j :: k <= j < w.polls - 1 ==> Continues(poll[j], target))
      && (w.outcome.TimedOut? ==> w.polls == deadline && (k < deadline ==> Continues(poll[deadline - 1], target)))
      && (w.outcome.Observed? ==> k < w.polls && poll[w.polls - 1] == Result.Ok(target))
      && (w.outcome.Aborted? ==> k < w.polls && poll[w.polls - 1] == Result.Err(w.outcome.error))
    decreases deadline - k
  {
    if k < deadline && Continues(poll[k], target) {
      WaitShape(poll, target, k + 1, deadline);
    }
  }

  /**
   * The wait from the first read: at most `deadline` reads, all but the last
   * neither failing nor showing the target; a timeout takes exactly
   * `deadline` reads; otherwise the last read showed the target or failed.
   */
  function Wait(poll: seq<Result<Rancher.MachineState>>, target: Rancher.MachineState, deadline: nat): (w: WaitResult)
    requires deadline <= |poll|
    ensures w.polls <= deadline
    ensures forall j :: 0 <= j < w.polls - 1 ==> Continues(poll[j], target)
    ensures w.outcome.TimedOut? ==> w.polls == deadline
    ensures w.outcome.Observed? ==> 0 < w.polls && poll[w.polls - 1] == Result.Ok(target)
    ensures w.outcome.Aborted? ==> 0 < w.polls && poll[w.polls - 1] == Result.Err(w.outcome.error)
  {
    WaitShape(poll, target, 0, deadline);
    WaitFrom(poll, target, 0, deadline)
  }

  /** A machine that shows the target after `n` other states is seen after n + 1 reads, if the deadline allows. */
  lemma {:induction false} WaitObserves(poll: seq<Result<Rancher.MachineState>>, target: Rancher.MachineState, k: nat, n: nat, deadline: nat)
    requires k <= n < deadline <= |poll|
    requires forall j :: k <= j < n ==> Continues(poll[j], target)
    requires poll[n] == Result.Ok(target)
    ensures WaitFrom(poll, target, k, deadline) == WaitResult(n + 1, Observed)
    decreases n - k
  {
    if k < n {
      assert Continues(poll[k], target);
      WaitObserves(poll, target, k + 1, n, deadline);
    }
  }

  /** A machine that never shows the target times out after exactly `deadline` reads. */
  lemma {:induction false} WaitTimesOut(poll: seq<Result<Rancher.MachineState>>, target: Rancher.MachineState, k: nat, deadline: nat)
    requires k <= deadline <= |poll|
    requires forall j :: k <= j < deadline ==> Continues(poll[j], target)
    ensures WaitFrom(poll, target, k, deadline) == WaitResult(deadline, TimedOut)
    decreases deadline - k
  {
    if k < deadline {
      assert Continues(poll[k], target);
      WaitTimesOut(poll, target, k + 1, deadline);
    }
  }

  /** A failing read ends the wait with that read's error. */
  lemma {:induction false} WaitAborts(poll: seq<Result<Rancher.MachineState>>, target: Rancher.MachineState, k: nat, n: nat, deadline: nat, e: Error)
    requires k <= n < deadline <= |poll|
    requires forall j :: k <= j < n ==> Continues(poll[j], target)
    requires poll[n] == Result.Err(e)
    ensures WaitFrom(poll, target, k, deadline) == WaitResult(n + 1, Aborted(e))
    decreases n - k
  {
    if k < n {
      assert Continues(poll[k], target);
      WaitAborts(poll, target, k + 1, n, deadline, e);
    }
  }

  // ---------------------------------------------------------------------------
  // Polling a machine's state through a revision's state mapping.

  /** How a revision maps the instance's run state to a machine state. */
  type StateMapping = InstanceState -> Rancher.MachineState

  /** What `GetState` returns for an answer of the instance-view call. */
  function StateAnswer(toMachine: StateMapping, r: Result<InstanceState>): (a: Result<Rancher.MachineState>)
    ensures r.Err? <==> a.Err?
    ensures r.Err? ==> a.error == r.error
    ensures r.Ok? ==> a.value == toMachine(r.value)
  {
    match r
    case Err(e) => Err(e)
    case Ok(s) => Ok(toMachine(s))
  }

  /**
   * `Remove`'s wait for the instance to stop, view call `v0` being its
   * first read: it makes at most `deadline` reads.
   */
  function StopWait(toMachine: StateMapping, sc: Script, v0: nat, deadline: nat): (w: WaitResult)
    ensures w.polls <= deadline
  {
    Wait(Poll(toMachine, sc, v0, deadline), Rancher.Stopped, deadline)
  }

  /** The answers of successive `GetState` calls, the first of them being view call `v0`. */
  function Poll(toMachine: StateMapping, sc: Script, v0: nat, n: nat): (answers: seq<Result<Rancher.MachineState>>)
    ensures |answers| == n
  {
    seq(n, k requires 0 <= k < n => StateAnswer(toMachine, sc.views(v0 + k)))
  }

  /**
   * One round of `Remove`'s polling loop: a `GetState` that fails ends the
   * wait with its error, one that shows stopped ends it as observed, and any
   * other state leaves the rest of the wait to come.
   */
  lemma WaitAfterRead(toMachine: StateMapping, sc: Script, v0: nat, k: nat, deadline: nat)
    requires k < deadline
    ensures var a := StateAnswer(toMachine, sc.views(v0 + k));
      var w := WaitFrom(Poll(toMachine, sc, v0, deadline), Rancher.Stopped, k, deadline);
      && (a.Err? ==> w == WaitResult(k + 1, Aborted(a.error)))
      && (a == Ok(Rancher.Stopped) ==> w == WaitResult(k + 1, Observed))
      && (a.Ok? && a.value != Rancher.Stopped ==> w == WaitFrom(Poll(toMachine, sc, v0, deadline), Rancher.Stopped, k + 1, deadline))
  {
    assert Poll(toMachine, sc, v0, deadline)[k] == StateAnswer(toMachine, sc.views(v0 + k));
  }

  /** Reads that never show the instance stopped: the wait times out after `deadline` reads. */
  lemma PollTimesOut(toMachine: StateMapping, sc: Script, v0: nat, deadline: nat)
    requires forall v :: v0 <= v < v0 + deadline ==> Continues(StateAnswer(toMachine, sc.views(v)), Rancher.Stopped)
    ensures Wait(Poll(toMachine, sc, v0, deadline), Rancher.Stopped, deadline) == WaitResult(deadline, TimedOut)
  {
    var poll := Poll(toMachine, sc, v0, deadline);
    forall j | 0 <= j < deadline ensures Continues(poll[j], Rancher.Stopped) {
      assert poll[j] == StateAnswer(toMachine, sc.views(v0 + j));
    }
    WaitTimesOut(poll, Rancher.Stopped, 0, deadline);
  }

  /** Reads that show the instance stopped at read n < deadline, and not before: the wait ends after n + 1 reads. */
  lemma PollObserves(toMachine: StateMapping, sc: Script, v0: nat, n: nat, deadline: nat)
    requires n < deadline
    requires forall v :: v0 <= v < v0 + n ==> Continues(StateAnswer(toMachine, sc.views(v)), Rancher.Stopped)
    requires StateAnswer(toMachine, sc.views(v0 + n)) == Ok(Rancher.Stopped)
    ensures Wait(Poll(toMachine, sc, v0, deadline), Rancher.Stopped, deadline) == WaitResult(n + 1, Observed)
  {
    var poll := Poll(toMachine, sc, v0, deadline);
    forall j | 0 <= j < n ensures Continues(poll[j], Rancher.Stopped) {
      assert poll[j] == StateAnswer(toMachine, sc.views(v0 + j));
    }
    assert poll[n] == StateAnswer(toMachine, sc.views(v0 + n));
    WaitObserves(poll, Rancher.Stopped, 0, n, deadline);
  }
}
