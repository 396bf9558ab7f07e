// The trace semantics of a scenario run: external steps attempted in order,
// a fatal failure ending the run at once (t.Fatalf), and deferred cleanup
// run last-in first-out on every exit path.

module Sequencing {
  import opened Kubeone

  /** What the scenario does to the outside world, in the order it does it. */
  datatype Event =
    | Build                                    // make build
    | Download(release: string)                // fetch a released kubeone binary
    | Install(version: string, release: string) // install the cluster with that release
    | Apply(version: string, bin: KubeoneBin)  // kubeone apply
    | ProxyStart(bin: KubeoneBin)              // kubeone proxy, started in the background
    | WaitReady(bin: KubeoneBin)               // wait for all nodes to be ready
    | CPTests(provider: string)                // cloud-provider tests, with their own cleanup
    | Sonobuoy(bin: KubeoneBin, proxyURL: string) // conformance-lite run through the proxy
    | Kill                                     // cancel the proxy's context
    | Wait                                     // wait for the proxy process to exit
    | WaitErrorLogged                          // the proxy's exit error, logged only

  /** One external step of a plan with the outcome the outside world gives it. */
  datatype Step = Step(event: Event, ok: bool)

  datatype Verdict = Passed | Failed(at: Event)

  /** Index of the first failing step, or |steps| when every step succeeds. */
  function FailIndex(steps: seq<Step>): (k: nat)
    ensures k <= |steps|
  {
    if steps == [] || !steps[0].ok then 0 else 1 + FailIndex(steps[1..])
  }

  /** Every step before the first failing index succeeds, and the step at it fails. */
  lemma {:induction false} FailIndexIsFirstFailure(steps: seq<Step>)
    ensures forall i :: 0 <= i < FailIndex(steps) ==> steps[i].ok
    ensures FailIndex(steps) < |steps| ==> !steps[FailIndex(steps)].ok
  {
    if steps != [] && steps[0].ok {
      FailIndexIsFirstFailure(steps[1..]);
    }
  }

  /**
   * The events of running the steps fail-fast: every step up to and
   * including the first failing one, and none after it.
   */
  function Attempt(steps: seq<Step>): (r: seq<Event>)
    ensures |r| == if FailIndex(steps) < |steps| then FailIndex(steps) + 1 else |steps|
  {
    if steps == [] then []
    else [steps[0].event] + (if steps[0].ok then Attempt(steps[1..]) else [])
  }

  /** The attempted events are the plan's own events, in the plan's order. */
  lemma {:induction false} AttemptIsPrefix(steps: seq<Step>)
    ensures forall i :: 0 <= i < |Attempt(steps)| ==> Attempt(steps)[i] == steps[i].event
  {
    if steps != [] && steps[0].ok {
      AttemptIsPrefix(steps[1..]);
    }
  }

  /** A run passes exactly when every step succeeds; otherwise it fails at the first failing step. */
  function VerdictOf(steps: seq<Step>): Verdict
  {
    var k := FailIndex(steps);
    if k == |steps| then Passed else Failed(steps[k].event)
  }

  /**
   * A run passes exactly when every step succeeds; otherwise it fails at a
   * failing step all of whose predecessors succeeded.
   */
  lemma VerdictIsFirstFailure(steps: seq<Step>)
    ensures VerdictOf(steps) == Passed <==> forall i :: 0 <= i < |steps| ==> steps[i].ok
    ensures VerdictOf(steps).Failed? ==>
              exists i :: 0 <= i < |steps| && !steps[i].ok && VerdictOf(steps).at == steps[i].event &&
                          forall j :: 0 <= j < i ==> steps[j].ok
  {
    FailIndexIsFirstFailure(steps);
  }

  /** Running a step followed by others: the step, then the others only if it succeeded. */
  lemma AttemptCons(s: Step, rest: seq<Step>)
    ensures FailIndex([s] + rest) == if s.ok then 1 + FailIndex(rest) else 0
    ensures Attempt([s] + rest) == [s.event] + (if s.ok then Attempt(rest) else [])
    ensures VerdictOf([s] + rest) == if s.ok then VerdictOf(rest) else Failed(s.event)
  {
    assert ([s] + rest)[1..] == rest;
  }

  /** A whole plan, step by step: the fail-fast run of up to four steps spelled out. */
  lemma AttemptFour(steps: seq<Step>)
    requires |steps| == 4
    ensures Attempt(steps) ==
      if !steps[0].ok then [steps[0].event]
      else if !steps[1].ok then [steps[0].event, steps[1].event]
      else if !steps[2].ok then [steps[0].event, steps[1].event, steps[2].event]
      else [steps[0].event, steps[1].event, steps[2].event, steps[3].event]
    ensures FailIndex(steps) ==
      if !steps[0].ok then 0 else if !steps[1].ok then 1 else if !steps[2].ok then 2
      else if !steps[3].ok then 3 else 4
  {
    AttemptCons(steps[0], steps[1..]);
    assert steps[1..] == [steps[1]] + steps[2..];
    AttemptCons(steps[1], steps[2..]);
    assert steps[2..] == [steps[2]] + steps[3..];
    AttemptCons(steps[2], steps[3..]);
    assert steps[3..] == [steps[3]] + [];
    AttemptCons(steps[3], []);
  }

  lemma {:induction false} FailIndexConcat(a: seq<Step>, b: seq<Step>)
    ensures FailIndex(a + b) == if FailIndex(a) == |a| then |a| + FailIndex(b) else FailIndex(a)
  {
    if a == [] {
      assert a + b == b;
    } else {
      assert (a + b)[1..] == a[1..] + b;
      FailIndexConcat(a[1..], b);
    }
  }

  /** Running a concatenation fail-fast is running the first part, then the second only if the first passed. */
  lemma {:induction false} AttemptConcat(a: seq<Step>, b: seq<Step>)
    ensures Attempt(a + b) == Attempt(a) + (if FailIndex(a) == |a| then Attempt(b) else [])
  {
    if a == [] {
      assert a + b == b;
    } else {
      assert (a + b)[1..] == a[1..] + b;
      AttemptConcat(a[1..], b);
      if a[0].ok {
        var tail := if FailIndex(a[1..]) == |a[1..]| then Attempt(b) else [];
        assert Attempt(a + b) == [a[0].event] + (Attempt(a[1..]) + tail);
        assert [a[0].event] + (Attempt(a[1..]) + tail) == [a[0].event] + Attempt(a[1..]) + tail;
      }
    }
  }

  lemma VerdictConcat(a: seq<Step>, b: seq<Step>)
    ensures VerdictOf(a + b) == if VerdictOf(a).Passed? then VerdictOf(b) else VerdictOf(a)
  {
    FailIndexConcat(a, b);
  }

  /** The cleanup actions the proxy phase defers. */
  datatype Deferred = KillProxy | WaitProxy(fails: bool)

  function Effect(d: Deferred): seq<Event>
  {
    match d
    case KillProxy => [Kill]
    case WaitProxy(fails) => [Wait] + (if fails then [WaitErrorLogged] else [])
  }

  /** Deferred calls run last registered first. */
  function Unwind(stack: seq<Deferred>): seq<Event>
  {
    if stack == [] then [] else Effect(stack[|stack| - 1]) + Unwind(stack[..|stack| - 1])
  }

  /** Runs the deferred calls, as a function returns or exits through t.Fatalf. */
  method RunDeferred(stack: seq<Deferred>) returns (events: seq<Event>)
    ensures events == Unwind(stack)
  {
    events := [];
    var pending := stack;
    while pending != []
      invariant Unwind(stack) == events + Unwind(pending)
      decreases |pending|
    {
      events := events + Effect(pending[|pending| - 1]);
      pending := pending[..|pending| - 1];
    }
  }

  /** Cancel the proxy, then wait for it, logging (never failing on) its exit error. */
  function Teardown(waitFails: bool): (r: seq<Event>)
    ensures |r| >= 2 && r[0] == Kill && r[1] == Wait
    ensures Kill !in r[1..] && Wait !in r[2..]
    ensures forall e :: e in r ==> e == Kill || e == Wait || e == WaitErrorLogged
  {
    [Kill, Wait] + (if waitFails then [WaitErrorLogged] else [])
  }

  /**
   * Registering the wait first and the cancellation second, as the proxy
   * phase does, tears the proxy down as cancel-then-wait.
   */
  lemma ProxyDefersTearDown(waitFails: bool)
    ensures Unwind([WaitProxy(waitFails), KillProxy]) == Teardown(waitFails)
  {
    var stack := [WaitProxy(waitFails), KillProxy];
    assert stack[..1] == [WaitProxy(waitFails)] && stack[..1][..0] == [];
    assert Unwind(stack[..1]) == Effect(WaitProxy(waitFails));
  }

  /**
   * The trace of a plan whose step proxyAt starts the proxy: the steps
   * attempted fail-fast, followed by the teardown exactly when the proxy
   * step was reached and succeeded.
   */
  function ExpectedTrace(plan: seq<Step>, proxyAt: nat, waitFails: bool): seq<Event>
    requires proxyAt < |plan|
  {
    Attempt(plan) + (if proxyAt < FailIndex(plan) then Teardown(waitFails) else [])
  }

  /**
   * The proxy's exit error only adds a log line after the wait: the trace
   * with a failing wait is the trace with a clean one plus that line,
   * exactly when the proxy was started.
   */
  lemma {:induction false} WaitErrorOnlyLogged(plan: seq<Step>, proxyAt: nat)
    requires proxyAt < |plan|
    ensures ExpectedTrace(plan, proxyAt, true)
            == ExpectedTrace(plan, proxyAt, false) + (if proxyAt < FailIndex(plan) then [WaitErrorLogged] else [])
  {
    var attempted := Attempt(plan);
    if proxyAt < FailIndex(plan) {
      calc {
        ExpectedTrace(plan, proxyAt, true);
        attempted + [Kill, Wait, WaitErrorLogged];
        attempted + [Kill, Wait] + [WaitErrorLogged];
        ExpectedTrace(plan, proxyAt, false) + [WaitErrorLogged];
      }
    } else {
      assert ExpectedTrace(plan, proxyAt, true) == attempted + [];
    }
  }

  /**
   * A plan made of three phases, the proxy starting the last one: each phase
   * runs only if the one before it passed, and the teardown belongs to the
   * last phase.
   */
  lemma SequentialPhases(a: seq<Step>, b: seq<Step>, c: seq<Step>, waitFails: bool)
    requires |c| >= 1
    ensures ExpectedTrace(a + b + c, |a| + |b|, waitFails) ==
              if VerdictOf(a).Failed? then Attempt(a)
              else if VerdictOf(b).Failed? then Attempt(a) + Attempt(b)
              else Attempt(a) + Attempt(b) + ExpectedTrace(c, 0, waitFails)
    ensures VerdictOf(a + b + c) ==
              if VerdictOf(a).Failed? then VerdictOf(a)
              else if VerdictOf(b).Failed? then VerdictOf(b)
              else VerdictOf(c)
  {
    assert a + b + c == a + (b + c);
    FailIndexConcat(a, b + c);
    FailIndexConcat(b, c);
    AttemptConcat(a, b + c);
    AttemptConcat(b, c);
    VerdictConcat(a, b + c);
    VerdictConcat(b, c);
    if VerdictOf(a).Passed? && VerdictOf(b).Passed? {
      var td := if 0 < FailIndex(c) then Teardown(waitFails) else [];
      assert |a| + |b| < FailIndex(a + b + c) <==> 0 < FailIndex(c);
      assert Attempt(a + b + c) == Attempt(a) + (Attempt(b) + Attempt(c));
      ConcatAssoc(Attempt(a), Attempt(b), Attempt(c), td);
    } else {
      assert FailIndex(a + b + c) <= |a| + |b|;
    }
  }

  lemma ConcatAssoc<T>(a: seq<T>, b: seq<T>, c: seq<T>, d: seq<T>)
    ensures a + (b + c) + d == a + b + (c + d)
  {
  }

  function Occurrences(s: seq<Event>, e: Event): nat
  {
    if s == [] then 0 else (if s[0] == e then 1 else 0) + Occurrences(s[1..], e)
  }

  lemma {:induction false} OccurrencesConcat(s: seq<Event>, t: seq<Event>, e: Event)
    ensures Occurrences(s + t, e) == Occurrences(s, e) + Occurrences(t, e)
  {
    if s == [] {
      assert s + t == t;
    } else {
      assert (s + t)[1..] == s[1..] + t;
      OccurrencesConcat(s[1..], t, e);
    }
  }

  lemma {:induction false} OccurrencesAbsent(s: seq<Event>, e: Event)
    requires e !in s
    ensures Occurrences(s, e) == 0
  {
    if s != [] {
      OccurrencesAbsent(s[1..], e);
    }
  }

  /** A plan made of external steps only: it never cancels or waits on the proxy itself. */
  predicate NoTeardownSteps(plan: seq<Step>)
  {
    forall i :: 0 <= i < |plan| ==> plan[i].event != Kill && plan[i].event != Wait
  }

  /**
   * Cancel-then-wait happens exactly once each when the proxy started, and
   * not at all when the run ended before or at the proxy step; when it
   * happens it closes the trace, the cancellation first.
   */
  lemma TeardownExactlyOnce(plan: seq<Step>, proxyAt: nat, waitFails: bool)
    requires proxyAt < |plan| && NoTeardownSteps(plan)
    ensures var t := ExpectedTrace(plan, proxyAt, waitFails);
            var started := proxyAt < FailIndex(plan);
            Occurrences(t, Kill) == (if started then 1 else 0) &&
            Occurrences(t, Wait) == (if started then 1 else 0) &&
            (started ==> t[|Attempt(plan)|] == Kill && t[|Attempt(plan)| + 1] == Wait)
  {
    var a := Attempt(plan);
    AttemptIsPrefix(plan);
    assert Kill !in a && Wait !in a by {
      forall i | 0 <= i < |a| ensures a[i] != Kill && a[i] != Wait {
        assert a[i] == plan[i].event;
      }
    }
    OccurrencesAbsent(a, Kill);
    OccurrencesAbsent(a, Wait);
    var td := if proxyAt < FailIndex(plan) then Teardown(waitFails) else [];
    OccurrencesConcat(a, td, Kill);
    OccurrencesConcat(a, td, Wait);
    if proxyAt < FailIndex(plan) {
      var tail := if waitFails then [WaitErrorLogged] else [];
      assert td == [Kill] + ([Wait] + tail);
      OccurrencesConcat([Kill], [Wait] + tail, Kill);
      OccurrencesConcat([Wait], tail, Kill);
      OccurrencesConcat([Kill], [Wait] + tail, Wait);
      OccurrencesConcat([Wait], tail, Wait);
      OccurrencesAbsent(tail, Kill);
      OccurrencesAbsent(tail, Wait);
    }
  }

  /** The versions kubeone apply was run at, in order. */
  function AppliedVersions(trace: seq<Event>): seq<string>
  {
    if trace == [] then []
    else (if trace[0].Apply? then [trace[0].version] else []) + AppliedVersions(trace[1..])
  }

  lemma {:induction false} AppliedVersionsConcat(s: seq<Event>, t: seq<Event>)
    ensures AppliedVersions(s + t) == AppliedVersions(s) + AppliedVersions(t)
  {
    if s == [] {
      assert s + t == t;
    } else {
      assert (s + t)[1..] == s[1..] + t;
      AppliedVersionsConcat(s[1..], t);
      var head := if s[0].Apply? then [s[0].version] else [];
      assert head + (AppliedVersions(s[1..]) + AppliedVersions(t)) == head + AppliedVersions(s[1..]) + AppliedVersions(t);
    }
  }

  lemma AppliedOfApplies(v0: string, b0: KubeoneBin, v1: string, b1: KubeoneBin)
    ensures AppliedVersions([Apply(v0, b0)]) == [v0]
    ensures AppliedVersions([Apply(v0, b0), Apply(v1, b1)]) == [v0, v1]
  {
    assert [Apply(v0, b0)][1..] == [];
    assert [Apply(v1, b1)][1..] == [];
    assert AppliedVersions([Apply(v1, b1)]) == [v1];
    assert [Apply(v0, b0), Apply(v1, b1)][1..] == [Apply(v1, b1)];
  }

  lemma {:induction false} NoApplies(s: seq<Event>)
    requires forall i :: 0 <= i < |s| ==> !s[i].Apply?
    ensures AppliedVersions(s) == []
  {
    if s != [] {
      NoApplies(s[1..]);
    }
  }

  predicate NoApplySteps(plan: seq<Step>)
  {
    forall i :: 0 <= i < |plan| ==> !plan[i].event.Apply?
  }

  lemma NoAppliesAttempted(plan: seq<Step>)
    requires NoApplySteps(plan)
    ensures AppliedVersions(Attempt(plan)) == []
  {
    AttemptIsPrefix(plan);
    NoApplies(Attempt(plan));
  }

  lemma NoAppliesExpected(plan: seq<Step>, waitFails: bool)
    requires |plan| >= 1 && NoApplySteps(plan)
    ensures AppliedVersions(ExpectedTrace(plan, 0, waitFails)) == []
  {
    NoAppliesAttempted(plan);
    var td := if 0 < FailIndex(plan) then Teardown(waitFails) else [];
    NoApplies(td);
    AppliedVersionsConcat(Attempt(plan), td);
  }

  /**
   * In a three-phase plan whose first and last phases apply nothing, the
   * versions applied are those of the middle phase's attempted steps, or
   * none when the first phase failed.
   */
  lemma AppliedInMiddlePhase(a: seq<Step>, b: seq<Step>, c: seq<Step>, waitFails: bool)
    requires |c| >= 1 && NoApplySteps(a) && NoApplySteps(c)
    ensures AppliedVersions(ExpectedTrace(a + b + c, |a| + |b|, waitFails)) ==
              if VerdictOf(a).Failed? then [] else AppliedVersions(Attempt(b))
  {
    SequentialPhases(a, b, c, waitFails);
    NoAppliesAttempted(a);
    if VerdictOf(a).Passed? {
      AppliedVersionsConcat(Attempt(a), Attempt(b));
      if VerdictOf(b).Passed? {
        NoAppliesExpected(c, waitFails);
        AppliedVersionsConcat(Attempt(a) + Attempt(b), ExpectedTrace(c, 0, waitFails));
      }
    }
  }
}
