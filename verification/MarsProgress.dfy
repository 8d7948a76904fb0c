/**
 When a MARS queue empties: no more requests arrive, and each round starts after everything
 running has completed.
 */
module MarsProgress {
  import opened Sequences
  import opened MarsWindow
  import opened MarsSelection
  import opened Mars

  // ----- Completing everything that runs -----

  function Completions(jobs: seq<Job>): seq<Step> {
    if jobs == [] then [] else [Complete(jobs[0].id)] + Completions(jobs[1..])
  }

  function IdsOf(jobs: seq<Job>): seq<nat> {
    if jobs == [] then [] else [jobs[0].id] + IdsOf(jobs[1..])
  }

  /** The state once everything running has been collected. */
  function Idle(s: State): State {
    s.(running := [], traces := s.traces + IdsOf(s.running))
  }

  lemma {:induction false} WithoutAbsent(jobs: seq<Job>, id: nat)
    requires forall job :: job in jobs ==> job.id != id
    ensures WithoutJob(jobs, id) == jobs
  {
    if jobs != [] {
      WithoutAbsent(jobs[..|jobs| - 1], id);
      assert jobs == jobs[..|jobs| - 1] + [jobs[|jobs| - 1]];
    }
  }

  lemma {:induction false} WithoutFirst(jobs: seq<Job>)
    requires DistinctJobs(jobs) && jobs != []
    ensures WithoutJob(jobs, jobs[0].id) == jobs[1..]
  {
    var init, last := jobs[..|jobs| - 1], jobs[|jobs| - 1];
    if init == [] {
      assert WithoutJob([], jobs[0].id) == [];
    } else {
      WithoutFirst(init);
      assert init[1..] + [last] == jobs[1..];
    }
  }

  lemma {:induction false} CompletionsRun(a: Args, blocks: nat, s: State)
    requires DistinctJobs(s.running)
    ensures IsRun(a, blocks, s, Completions(s.running))
    ensures Execute(a, s, Completions(s.running)) == Idle(s)
    decreases |s.running|
  {
    if s.running == [] {
      assert s.traces + [] == s.traces;
    } else {
      var first, rest := s.running[0], s.running[1..];
      var t := Completed(s, first.id);
      WithoutFirst(s.running);
      CompletionsRun(a, blocks, t);
      assert first in s.running;
      assert Completions(s.running)[1..] == Completions(rest);
      assert s.traces + ([first.id] + IdsOf(rest)) == (s.traces + [first.id]) + IdsOf(rest);
    }
  }

  // ----- One cycle: complete everything, then one round -----

  function Cycle(a: Args, s: State, i: Input): State {
    Round(a, Idle(s), i)
  }

  function CycleSteps(s: State, i: Input): seq<Step> {
    Completions(s.running) + [Admit(i)]
  }

  lemma {:induction false} RunConcat(a: Args, blocks: nat, s: State, steps: seq<Step>, more: seq<Step>)
    requires IsRun(a, blocks, s, steps) && IsRun(a, blocks, Execute(a, s, steps), more)
    ensures IsRun(a, blocks, s, steps + more)
    ensures Execute(a, s, steps + more) == Execute(a, Execute(a, s, steps), more)
    decreases |steps|
  {
    if steps == [] {
      assert steps + more == more;
    } else {
      RunConcat(a, blocks, Apply(a, s, steps[0]), steps[1..], more);
      assert (steps + more)[1..] == steps[1..] + more;
    }
  }

  lemma OneStep(a: Args, blocks: nat, s: State, step: Step)
    requires Enabled(s, step, blocks)
    ensures IsRun(a, blocks, s, [step]) && Execute(a, s, [step]) == Apply(a, s, step)
  {
    assert [step][1..] == [];
    assert Execute(a, Apply(a, s, step), []) == Apply(a, s, step);
    assert IsRun(a, blocks, Apply(a, s, step), []);
  }

  lemma CycleRuns(a: Args, blocks: nat, s: State, i: Input)
    requires DistinctJobs(s.running) && (i.fetch.Full? ==> Plausible(i.fetch.stats, blocks))
    ensures IsRun(a, blocks, s, CycleSteps(s, i)) && Execute(a, s, CycleSteps(s, i)) == Cycle(a, s, i)
  {
    CompletionsRun(a, blocks, s);
    OneStep(a, blocks, Idle(s), Admit(i));
    RunConcat(a, blocks, s, Completions(s.running), [Admit(i)]);
  }

  lemma {:induction false} RemainingIsShorter(backlog: seq<Entry>, chosen: seq<Job>)
    ensures |Remaining(backlog, chosen)| <= |backlog|
    ensures (exists e :: e in backlog && IsChosen(chosen, e.index)) ==> |Remaining(backlog, chosen)| < |backlog|
  {
    if backlog != [] {
      RemainingIsShorter(backlog[..|backlog| - 1], chosen);
      assert backlog == backlog[..|backlog| - 1] + [backlog[|backlog| - 1]];
    }
  }

  lemma AdmittingShrinks(a: Args, s: State, g: Signals)
    requires IncreasingEntries(s.backlog)
    ensures Selection(a, s, g).chosen != [] ==> |Admitted(a, s, g).backlog| < |s.backlog|
    ensures Selection(a, s, g).chosen == [] ==> Admitted(a, s, g).backlog == s.backlog
  {
    var chosen := Selection(a, s, g).chosen;
    if chosen == [] {
      NothingChosenNothingMoves(s.backlog);
    } else {
      ChosenCameFromBacklog(a, s, g);
      assert chosen[0].id in Ids(chosen);
      var e :| e in s.backlog && e.index == chosen[0].id;
      assert IsChosen(chosen, e.index);
      RemainingIsShorter(s.backlog, chosen);
    }
  }

  /** A cycle shortens the backlog exactly when the round can progress, and otherwise leaves it as it is. */
  lemma CycleShrinksExactlyWhen(a: Args, s: State, i: Input)
    requires a.poolSize > 0 && WindowMin(a) <= s.limit && IncreasingEntries(s.backlog) && s.backlog != []
    ensures var progress := CanProgress(a, Idle(s), SignalsOf(a, Idle(s), i));
            && (progress ==> |Cycle(a, s, i).backlog| < |s.backlog|)
            && (!progress ==> Cycle(a, s, i).backlog == s.backlog)
  {
    RoundAdmitsExactlyWhen(a, Idle(s), i);
    AdmittingShrinks(a, Controlled(a, Idle(s), i), SignalsOf(a, Idle(s), i));
  }

  // ----- Until the backlog is empty -----

  function Cycles(a: Args, s: State, inputs: seq<Input>): State
    decreases |inputs|
  {
    if inputs == [] then s else Cycles(a, Cycle(a, s, inputs[0]), inputs[1..])
  }

  function AllSteps(a: Args, s: State, inputs: seq<Input>): seq<Step>
    decreases |inputs|
  {
    if inputs == [] then [] else CycleSteps(s, inputs[0]) + AllSteps(a, Cycle(a, s, inputs[0]), inputs[1..])
  }

  /** While something waits, every round can progress. */
  ghost predicate EachProgresses(a: Args, s: State, inputs: seq<Input>)
    decreases |inputs|
  {
    inputs == [] || s.backlog == [] ||
    (&& CanProgress(a, Idle(s), SignalsOf(a, Idle(s), inputs[0]))
     && EachProgresses(a, Cycle(a, s, inputs[0]), inputs[1..]))
  }

  ghost predicate AllPlausible(inputs: seq<Input>, blocks: nat) {
    forall i <- inputs :: i.fetch.Full? ==> Plausible(i.fetch.stats, blocks)
  }

  lemma CycleKeepsInv(a: Args, blocks: nat, s: State, i: Input)
    requires a.poolSize > 0 && Accounted(s) && WithinBounds(a, blocks, s)
    requires i.fetch.Full? ==> Plausible(i.fetch.stats, blocks)
    ensures Accounted(Cycle(a, s, i)) && WithinBounds(a, blocks, Cycle(a, s, i))
  {
    CycleRuns(a, blocks, s, i);
    RunKeepsInv(a, blocks, s, CycleSteps(s, i));
  }

  lemma {:induction false} CyclesAreARun(a: Args, blocks: nat, s: State, inputs: seq<Input>)
    requires a.poolSize > 0 && Accounted(s) && WithinBounds(a, blocks, s) && AllPlausible(inputs, blocks)
    ensures IsRun(a, blocks, s, AllSteps(a, s, inputs))
    ensures Execute(a, s, AllSteps(a, s, inputs)) == Cycles(a, s, inputs)
    decreases |inputs|
  {
    if inputs != [] {
      assert inputs[0] in inputs;
      var t := Cycle(a, s, inputs[0]);
      CycleRuns(a, blocks, s, inputs[0]);
      CycleKeepsInv(a, blocks, s, inputs[0]);
      CyclesAreARun(a, blocks, t, inputs[1..]);
      RunConcat(a, blocks, s, CycleSteps(s, inputs[0]), AllSteps(a, t, inputs[1..]));
    }
  }

  lemma {:induction false} CyclesEmptyTheBacklog(a: Args, blocks: nat, s: State, inputs: seq<Input>)
    requires a.poolSize > 0 && Accounted(s) && WithinBounds(a, blocks, s) && AllPlausible(inputs, blocks)
    requires |s.backlog| <= |inputs| && EachProgresses(a, s, inputs)
    ensures Cycles(a, s, inputs).backlog == []
    decreases |inputs|
  {
    if inputs != [] {
      assert inputs[0] in inputs;
      CycleKeepsInv(a, blocks, s, inputs[0]);
      if s.backlog != [] {
        CycleShrinksExactlyWhen(a, s, inputs[0]);
      }
      CyclesEmptyTheBacklog(a, blocks, Cycle(a, s, inputs[0]), inputs[1..]);
    }
  }

  /**
   From any reachable state, with no more arrivals: if everything running completes before each round
   and every round can progress while something waits, then as many rounds as requests wait are enough.
   The steps are a run, at whose end every request ever emitted is running or collected.
   */
  lemma BacklogEmpties(a: Args, blocks: nat, steps: seq<Step>, inputs: seq<Input>)
    requires a.poolSize > 0 && IsRun(a, blocks, InitialState(a), steps) && AllPlausible(inputs, blocks)
    requires var s := Execute(a, InitialState(a), steps); |s.backlog| <= |inputs| && EachProgresses(a, s, inputs)
    ensures var s := Execute(a, InitialState(a), steps); var t := Execute(a, s, AllSteps(a, s, inputs));
            && IsRun(a, blocks, s, AllSteps(a, s, inputs))
            && t.backlog == [] && t.nextIndex == s.nextIndex
            && Ids(t.running) + Elements(t.traces) == Elements(Range(0, t.nextIndex))
  {
    var s := Execute(a, InitialState(a), steps);
    assert Accounted(InitialState(a));
    RunKeepsInv(a, blocks, InitialState(a), steps);
    CyclesAreARun(a, blocks, s, inputs);
    CyclesEmptyTheBacklog(a, blocks, s, inputs);
    RunKeepsInv(a, blocks, s, AllSteps(a, s, inputs));
    CyclesEmitNothing(a, s, inputs);
  }

  lemma {:induction false} CyclesEmitNothing(a: Args, s: State, inputs: seq<Input>)
    ensures Cycles(a, s, inputs).nextIndex == s.nextIndex
    decreases |inputs|
  {
    if inputs != [] {
      CyclesEmitNothing(a, Cycle(a, s, inputs[0]), inputs[1..]);
    }
  }
}
