/**
 What becomes of each request over a whole run of the app-server driver: the outcome it leaves with is decided
 by the one step it took, and an answered request returns what its queue held.
 */
module CodexCalls {
  import opened Sequences
  import opened CodexRpc

  lemma {:induction false} RunMore(s: State, steps: seq<Step>, step: Step)
    requires IsRun(s, steps + [step])
    ensures IsRun(s, steps) && Enabled(Execute(s, steps), step)
    ensures Execute(s, steps + [step]) == Apply(Execute(s, steps), step)
    decreases |steps|
  {
    var all := steps + [step];
    if steps == [] {
      assert all == [step] && all[1..] == [];
      assert Execute(Apply(s, step), []) == Apply(s, step);
    } else {
      assert all[0] == steps[0] && all[1..] == steps[1..] + [step];
      RunMore(Apply(s, steps[0]), steps[1..], step);
    }
  }

  /** A step with which the request gives up sending. */
  predicate FailsToSend(step: Step, c: Call) {
    step == FailBeforeWrite(c) || step == FailWrite(c) || step == FailRecord(c)
  }

  ghost predicate FailedToSend(steps: seq<Step>, c: Call) {
    exists step :: step in steps && FailsToSend(step, c)
  }

  /** At step k the request took this reply out of its queue. */
  ghost predicate TookAt(steps: seq<Step>, c: Call, reply: Reply, k: nat) {
    && k < |steps| && steps[k] == Get(c) && IsRun(Start, steps[..k])
    && var s := Execute(Start, steps[..k]);
       && c in s.calls && s.calls[c].id in s.queues && s.queues[s.calls[c].id] == Some(reply)
  }

  ghost predicate Took(steps: seq<Step>, c: Call, reply: Reply) {
    exists k :: TookAt(steps, c, reply, k)
  }

  /** The outcome is the one of the step taken, and no step of another outcome was taken. */
  ghost predicate Decided(steps: seq<Step>, c: Call, outcome: Outcome) {
    && (outcome.Answered? <==> Get(c) in steps)
    && (outcome.Answered? ==> Took(steps, c, outcome.reply))
    && (outcome.TimedOut? <==> MarkExpired(c) in steps)
    && (outcome.SendFailed? <==> FailedToSend(steps, c))
  }

  /** Nothing has been decided. */
  ghost predicate Open(steps: seq<Step>, c: Call) {
    Get(c) !in steps && MarkExpired(c) !in steps && !FailedToSend(steps, c)
  }

  /** The request was registered at some step, with a fatal error already set or not. */
  ghost predicate RegisteredAt(steps: seq<Step>, c: Call, failed: bool, k: nat) {
    && k < |steps| && steps[k] == Register(c) && IsRun(Start, steps[..k])
    && Execute(Start, steps[..k]).fatal.Some? == failed
  }

  ghost predicate WasRegistered(steps: seq<Step>, c: Call, failed: bool) {
    exists k :: RegisteredAt(steps, c, failed, k)
  }

  /** Where the request is tells whether it has been registered, and how. */
  ghost predicate RegistrationTold(steps: seq<Step>, s: State, c: Call) {
    if c !in s.calls || s.calls[c].Allocated? then Register(c) !in steps
    else WasRegistered(steps, c, s.calls[c].Gone? && s.calls[c].outcome.Refused?)
  }

  lemma RegisteredInMore(steps: seq<Step>, step: Step, c: Call, failed: bool)
    requires WasRegistered(steps, c, failed)
    ensures WasRegistered(steps + [step], c, failed)
  {
    var k: nat :| RegisteredAt(steps, c, failed, k);
    assert (steps + [step])[..k] == steps[..k];
    assert RegisteredAt(steps + [step], c, failed, k);
  }

  lemma StepKeepsRegistration(steps: seq<Step>, s: State, step: Step, c: Call)
    requires IsRun(Start, steps) && s == Execute(Start, steps) && Enabled(s, step) && RegistrationTold(steps, s, c)
    requires c in s.calls && s.calls[c].Leaving? ==> !s.calls[c].outcome.Refused?
    ensures RegistrationTold(steps + [step], Apply(s, step), c)
  {
    if step == Register(c) {
      var all := steps + [step];
      assert all[..|steps|] == steps && all[|steps|] == step;
      assert RegisteredAt(all, c, s.fatal.Some?, |steps|);
    } else if Mover(step) != Some(c) {
      OthersStay(s, step, c);
    }
    if c in s.calls && !s.calls[c].Allocated? {
      RegisteredInMore(steps, step, c, s.calls[c].Gone? && s.calls[c].outcome.Refused?);
    }
  }

  /** Where the request is tells which steps it has taken. */
  ghost predicate Told(steps: seq<Step>, s: State, c: Call) {
    if c !in s.calls then Open(steps, c)
    else match s.calls[c]
      case Leaving(_, outcome) => !outcome.Refused? && Decided(steps, c, outcome)
      case Gone(_, outcome) => Decided(steps, c, outcome)
      case SendBroken(_) => Get(c) !in steps && MarkExpired(c) !in steps && FailedToSend(steps, c)
      case _ => Open(steps, c)
  }

  lemma TookInMore(steps: seq<Step>, step: Step, c: Call, reply: Reply)
    requires Took(steps, c, reply)
    ensures Took(steps + [step], c, reply)
  {
    var k: nat :| TookAt(steps, c, reply, k);
    assert (steps + [step])[..k] == steps[..k];
    assert TookAt(steps + [step], c, reply, k);
  }

  lemma FailureInMore(steps: seq<Step>, step: Step, c: Call)
    ensures FailedToSend(steps + [step], c) <==> FailedToSend(steps, c) || FailsToSend(step, c)
  {
    var all := steps + [step];
    if FailedToSend(steps, c) {
      var x :| x in steps && FailsToSend(x, c);
      assert x in all;
    } else if FailsToSend(step, c) {
      assert step in all;
    }
  }

  lemma GetTakes(steps: seq<Step>, s: State, c: Call)
    requires IsRun(Start, steps) && s == Execute(Start, steps) && Enabled(s, Get(c))
    ensures Took(steps + [Get(c)], c, s.queues[s.calls[c].id].value)
  {
    var all := steps + [Get(c)];
    assert all[|steps|] == Get(c) && all[..|steps|] == steps;
    assert TookAt(all, c, s.queues[s.calls[c].id].value, |steps|);
  }

  /** The call that a step moves, if any. */
  function Mover(step: Step): Option<Call> {
    match step
    case Allocate(c) => Some(c)
    case Register(c) => Some(c)
    case Send(c) => Some(c)
    case FailBeforeWrite(c) => Some(c)
    case FailWrite(c) => Some(c)
    case FailRecord(c) => Some(c)
    case BreakPipe(c, _, _) => Some(c)
    case Get(c) => Some(c)
    case TimeOut(c) => Some(c)
    case MarkExpired(c) => Some(c)
    case Leave(c) => Some(c)
    case _ => None
  }

  lemma OthersStay(s: State, step: Step, c: Call)
    requires Enabled(s, step) && Mover(step) != Some(c)
    ensures var t := Apply(s, step);
            (c in t.calls <==> c in s.calls) && (c in s.calls ==> t.calls[c] == s.calls[c])
  {
  }

  lemma StayingKeepsTold(steps: seq<Step>, s: State, t: State, step: Step, c: Call)
    requires Told(steps, s, c) && Mover(step) != Some(c)
    requires (c in t.calls <==> c in s.calls) && (c in s.calls ==> t.calls[c] == s.calls[c])
    ensures Told(steps + [step], t, c)
  {
    FailureInMore(steps, step, c);
    if c in s.calls && (s.calls[c].Leaving? || s.calls[c].Gone?) && s.calls[c].outcome.Answered? {
      TookInMore(steps, step, c, s.calls[c].outcome.reply);
    }
  }

  lemma SendingKeepsTold(steps: seq<Step>, s: State, step: Step, c: Call)
    requires Enabled(s, step) && Told(steps, s, c) && Mover(step) == Some(c) && IsOpening(step)
    ensures Told(steps + [step], Apply(s, step), c)
  {
    FailureInMore(steps, step, c);
  }

  lemma LeavingKeepsTold(steps: seq<Step>, s: State, step: Step, c: Call)
    requires Enabled(s, step) && Told(steps, s, c) && Mover(step) == Some(c) && IsClosing(step) && !step.Get?
    ensures Told(steps + [step], Apply(s, step), c)
  {
    FailureInMore(steps, step, c);
    if step.Leave? && s.calls[c].outcome.Answered? {
      TookInMore(steps, step, c, s.calls[c].outcome.reply);
    }
  }

  lemma StepKeepsTold(steps: seq<Step>, s: State, step: Step, c: Call)
    requires IsRun(Start, steps) && s == Execute(Start, steps) && Enabled(s, step) && Told(steps, s, c)
    ensures Told(steps + [step], Apply(s, step), c)
  {
    if Mover(step) != Some(c) {
      OthersStay(s, step, c);
      StayingKeepsTold(steps, s, Apply(s, step), step, c);
    } else if IsOpening(step) {
      SendingKeepsTold(steps, s, step, c);
    } else if step.Get? {
      GetTakes(steps, s, c);
      FailureInMore(steps, step, c);
    } else {
      LeavingKeepsTold(steps, s, step, c);
    }
  }

  lemma {:induction false} RunTells(steps: seq<Step>, c: Call)
    requires IsRun(Start, steps)
    ensures Told(steps, Execute(Start, steps), c) && RegistrationTold(steps, Execute(Start, steps), c)
  {
    if steps != [] {
      var init, last := steps[..|steps| - 1], steps[|steps| - 1];
      assert steps == init + [last];
      RunMore(Start, init, last);
      RunTells(init, c);
      StepKeepsTold(init, Execute(Start, init), last, c);
      StepKeepsRegistration(init, Execute(Start, init), last, c);
    }
  }

  /**
   Over every run, a departed request is answered exactly if it took a reply, and then with the content of its queue
   at that step; timed out exactly if it marked its id; failed exactly if a send step failed; and refused exactly if
   a fatal error was set when it was registered.
   */
  lemma OutcomeIsDecidedByItsStep(steps: seq<Step>, c: Call)
    requires IsRun(Start, steps)
    requires var s := Execute(Start, steps); c in s.calls && s.calls[c].Gone?
    ensures var outcome := Execute(Start, steps).calls[c].outcome;
            && Decided(steps, c, outcome)
            && (outcome.Refused? <==> Open(steps, c))
            && WasRegistered(steps, c, outcome.Refused?)
  {
    RunTells(steps, c);
  }

  // ----- From the reply to the requester -----

  /** The queue of this call holds the reply, and the call may still take it. */
  ghost predicate Holding(s: State, c: Call, reply: Reply) {
    && c in s.calls && MayTake(s.calls[c])
    && s.calls[c].id in s.queues && s.queues[s.calls[c].id] == Some(reply)
  }

  predicate MayTake(pc: Pc) {
    pc.Sending? || pc.Waiting?
  }

  lemma HeldReplyStays(s: State, step: Step, c: Call, reply: Reply)
    requires IdsAreUnique(s) && PendingIsRegistered(s) && Enabled(s, step)
    requires Holding(s, c, reply) && step != Get(c) && !FailsToSend(step, c)
    ensures Holding(Apply(s, step), c, reply)
  {
  }

  /** Putting a reply into an empty queue gives it to the call that is registered under the id. */
  lemma PutGivesReply(s: State, c: Call)
    requires Inv(s) && Enabled(s, PutReply) && s.queues[s.reader.id].None?
    requires c in s.calls && s.calls[c].id == s.reader.id && MayTake(s.calls[c])
    ensures Holding(Apply(s, PutReply), c, Rpc(s.reader.id, s.reader.n))
    ensures Apply(s, PutReply).reader.Idle?
  {
  }

  lemma TakingAnswers(s: State, c: Call, reply: Reply)
    requires Holding(s, c, reply) && Enabled(s, Get(c))
    ensures var t := Apply(s, Get(c));
            && Enabled(t, Leave(c)) && Apply(t, Leave(c)).calls[c] == Gone(s.calls[c].id, Answered(reply))
  {
  }

  lemma {:induction false} HeldReplyIsTaken(s: State, others: seq<Step>, c: Call, reply: Reply)
    requires Inv(s) && Holding(s, c, reply) && IsRun(s, others)
    requires forall step <- others :: step != Get(c) && !FailsToSend(step, c)
    ensures Holding(Execute(s, others), c, reply)
    decreases |others|
  {
    if others != [] {
      assert others[0] in others && forall step <- others[1..] :: step in others;
      StepKeepsInv(s, others[0]);
      HeldReplyStays(s, others[0], c, reply);
      HeldReplyIsTaken(Apply(s, others[0]), others[1..], c, reply);
    }
  }

  /**
   A reply put into the empty queue of a request is the answer it returns: whatever happens between the put and the
   taking, a fatal error or the end of its waiting time, the request leaves with that very message.
   */
  lemma ReplyIsDelivered(steps: seq<Step>, c: Call, others: seq<Step>)
    requires IsRun(Start, steps)
    requires var s := Execute(Start, steps);
             && Enabled(s, PutReply) && s.queues[s.reader.id].None?
             && c in s.calls && s.calls[c].id == s.reader.id && MayTake(s.calls[c])
             && IsRun(Apply(s, PutReply), others)
    requires forall step <- others :: step != Get(c) && !FailsToSend(step, c)
    requires Enabled(Execute(Apply(Execute(Start, steps), PutReply), others), Get(c))
    ensures var s := Execute(Start, steps); var t := Apply(Execute(Apply(s, PutReply), others), Get(c));
            && Enabled(t, Leave(c))
            && Apply(t, Leave(c)).calls[c] == Gone(s.reader.id, Answered(Rpc(s.reader.id, s.reader.n)))
  {
    var s := Execute(Start, steps);
    RunKeepsInv(Start, steps);
    StepKeepsInv(s, PutReply);
    PutGivesReply(s, c);
    var reply := Rpc(s.reader.id, s.reader.n);
    HeldReplyIsTaken(Apply(s, PutReply), others, c, reply);
    CallKeepsIdOver(Apply(s, PutReply), others, c);
    TakingAnswers(Execute(Apply(s, PutReply), others), c, reply);
  }

  lemma {:induction false} CallKeepsIdOver(s: State, others: seq<Step>, c: Call)
    requires c in s.calls && IsRun(s, others)
    ensures c in Execute(s, others).calls && Execute(s, others).calls[c].id == s.calls[c].id
    decreases |others|
  {
    if others != [] {
      CallsKeepTheirIds(s, others[0]);
      CallKeepsIdOver(Apply(s, others[0]), others[1..], c);
    }
  }

  // ----- A fatal error reaches everybody -----

  /** The step enters the fatal-error function. */
  predicate EntersFatal(step: Step, t: Setter) {
    (step.SetFatal? && step.t == t) || (step.BreakPipe? && step.t == t) || (step.Complain? && step.t == t)
  }

  lemma EnteringIsNoted(s: State, step: Step, t: Setter)
    requires Enabled(s, step) && EntersFatal(step, t)
    ensures var s' := Apply(s, step);
            && s'.fatal.Some? && t in s'.setters && s'.setters[t] == Entered(s'.fatal.value)
            && Enabled(s', CopyPending(t))
            && (step.Complain? ==> s'.reader.Idle?)
  {
  }

  /** The steps are the setter's own. */
  predicate IsOwn(step: Step, t: Setter) {
    step == CopyPending(t) || (step.PutFatal? && step.t == t) || step == Finish(t)
  }

  lemma OwnStepsMoveNobody(s: State, step: Step, t: Setter)
    requires Enabled(s, step) && IsOwn(step, t)
    ensures Apply(s, step).calls == s.calls && Apply(s, step).fatal == s.fatal
  {
  }

  /** The setter does its next step, and comes closer to its end. */
  lemma OwnStepIsThere(s: State, t: Setter) returns (step: Step)
    requires Inv(s) && t in s.setters && !s.setters[t].Finished?
    ensures IsOwn(step, t) && Enabled(s, step) && t in Apply(s, step).setters
    ensures Left(Apply(s, step), t) < Left(s, t)
  {
    match s.setters[t]
    case Entered(_) => step := CopyPending(t);
    case Waking(_, todo) =>
      if todo == {} {
        step := Finish(t);
      } else {
        var q := Member(todo);
        step := PutFatal(t, q);
        assert todo - {q} < todo;
        SmallerSet(todo, q);
      }
  }

  lemma SmallerSet(todo: set<Id>, q: Id)
    requires q in todo
    ensures |todo - {q}| < |todo|
  {
  }

  /** How many steps the setter still has to do. */
  function Left(s: State, t: Setter): nat
    requires t in s.setters
  {
    match s.setters[t]
    case Entered(_) => |s.pending| + 2
    case Waking(_, todo) => |todo| + 1
    case Finished(_) => 0
  }

  /**
   Whoever has entered the fatal-error function can finish it on its own, and then every request still waiting finds
   its queue full.
   */
  lemma {:induction false} FatalCallReachesEverybody(s: State, t: Setter) returns (steps: seq<Step>)
    requires Inv(s) && t in s.setters
    ensures forall step <- steps :: IsOwn(step, t)
    ensures IsRun(s, steps) && Execute(s, steps).calls == s.calls
    ensures t in Execute(s, steps).setters && Execute(s, steps).setters[t].Finished?
    ensures forall c <- s.calls :: s.calls[c].Waiting? ==> Enabled(Execute(s, steps), Get(c))
    decreases Left(s, t)
  {
    if s.setters[t].Finished? {
      steps := [];
    } else {
      var step := OwnStepIsThere(s, t);
      OwnStepsMoveNobody(s, step, t);
      StepKeepsInv(s, step);
      var rest := FatalCallReachesEverybody(Apply(s, step), t);
      steps := [step] + rest;
      assert steps[1..] == rest;
    }
  }

  // ----- No request is stuck -----

  /** The call leaves with this outcome, its registration removed. */
  ghost predicate Leaves(s: State, c: Call, outcome: Outcome) {
    && Enabled(s, Leave(c))
    && var t := Apply(s, Leave(c));
       && t.calls[c] == Gone(s.calls[c].id, outcome) && s.calls[c].id !in t.pending
       && t.expired == s.expired && t.fatal == s.fatal
  }

  /** A request that waits can take what its queue holds; with an empty queue it can expire, and is marked. */
  lemma WaitingCanLeave(s: State, c: Call)
    requires Inv(s) && c in s.calls && s.calls[c].Waiting?
    ensures s.calls[c].id in s.queues
    ensures s.queues[s.calls[c].id].Some? ==>
              Enabled(s, Get(c)) && Leaves(Apply(s, Get(c)), c, Answered(s.queues[s.calls[c].id].value))
    ensures s.queues[s.calls[c].id].None? ==>
              && Enabled(s, TimeOut(c)) && Enabled(Apply(s, TimeOut(c)), MarkExpired(c))
              && var t := Apply(Apply(s, TimeOut(c)), MarkExpired(c));
                 s.calls[c].id in t.expired && Leaves(t, c, TimedOut)
  {
  }

  /** A registered request can be sent, and wait; or fail to be, and leave, a broken pipe setting the fatal error. */
  lemma SendingCanLeave(s: State, c: Call, t: Setter, e: Error)
    requires Inv(s) && c in s.calls && s.calls[c].Sending? && t !in s.setters
    ensures Enabled(s, Send(c)) && Apply(s, Send(c)).calls[c] == Waiting(s.calls[c].id)
    ensures Enabled(s, FailBeforeWrite(c)) && Leaves(Apply(s, FailBeforeWrite(c)), c, SendFailed)
    ensures Enabled(s, FailRecord(c)) && Leaves(Apply(s, FailRecord(c)), c, SendFailed)
    ensures Enabled(s, FailWrite(c)) && Enabled(Apply(s, FailWrite(c)), BreakPipe(c, t, e))
    ensures var u := Apply(Apply(s, FailWrite(c)), BreakPipe(c, t, e)); u.fatal.Some? && Leaves(u, c, SendFailed)
    ensures forall step <- [Send(c), FailWrite(c), FailRecord(c)] :: s.calls[c].id in Apply(s, step).sent
  {
  }

  /** A new request gets an id of its own, and is registered with an empty queue, or refused. */
  lemma NewRequestIsRegistered(s: State, c: Call)
    requires Inv(s) && c !in s.calls
    ensures Enabled(s, Allocate(c)) && Enabled(Apply(s, Allocate(c)), Register(c))
    ensures var id := Apply(s, Allocate(c)).calls[c].id; var t := Apply(Apply(s, Allocate(c)), Register(c));
            && (forall d <- s.calls :: s.calls[d].id != id)
            && (s.fatal.Some? ==> t.calls[c] == Gone(id, Refused) && t.pending == s.pending)
            && (s.fatal.None? ==> t.calls[c] == Sending(id) && id in t.pending && t.queues[id] == None)
  {
  }

  // ----- A mark absorbs one reply -----

  /** The id was marked at step k, and no reply to it has been read since. */
  ghost predicate MarkedAt(steps: seq<Step>, id: Id, k: nat) {
    && k < |steps| && steps[k].MarkExpired? && IsRun(Start, steps[..k])
    && var s := Execute(Start, steps[..k]);
       && steps[k].c in s.calls && s.calls[steps[k].c].id == id
       && forall j :: k < j < |steps| ==> steps[j] != ReadReply(id)
  }

  ghost predicate IsMarked(steps: seq<Step>, id: Id) {
    exists k :: MarkedAt(steps, id, k)
  }

  lemma MarkInMore(steps: seq<Step>, step: Step, id: Id)
    requires IsRun(Start, steps) && Enabled(Execute(Start, steps), step)
    ensures IsMarked(steps + [step], id) <==>
            || (IsMarked(steps, id) && step != ReadReply(id))
            || (step.MarkExpired? && Execute(Start, steps).calls[step.c].id == id)
  {
    var all, n := steps + [step], |steps|;
    assert all[n] == step && all[..n] == steps;
    assert forall j :: 0 <= j < n ==> all[j] == steps[j] && all[..j] == steps[..j];
    if IsMarked(steps, id) && step != ReadReply(id) {
      var k: nat :| MarkedAt(steps, id, k);
      assert MarkedAt(all, id, k);
    }
    if step.MarkExpired? && Execute(Start, steps).calls[step.c].id == id {
      assert MarkedAt(all, id, n);
    }
    if IsMarked(all, id) {
      var k: nat :| MarkedAt(all, id, k);
      MarkedBeforeOrNow(steps, step, id, k);
    }
  }

  lemma MarkedBeforeOrNow(steps: seq<Step>, step: Step, id: Id, k: nat)
    requires MarkedAt(steps + [step], id, k)
    ensures if k == |steps| then step.MarkExpired? && IsRun(Start, steps)
                                 && step.c in Execute(Start, steps).calls
                                 && Execute(Start, steps).calls[step.c].id == id
            else MarkedAt(steps, id, k) && step != ReadReply(id)
  {
    var all, n := steps + [step], |steps|;
    assert all[n] == step && all[..n] == steps;
    assert forall j :: 0 <= j < n ==> all[j] == steps[j] && all[..j] == steps[..j];
    assert k < n ==> all[n] != ReadReply(id);
  }

  /** Over every run: an id is marked exactly if its request has timed out and no reply to it has been read since. */
  lemma {:induction false} MarkAbsorbsOneReply(steps: seq<Step>, id: Id)
    requires IsRun(Start, steps)
    ensures id in Execute(Start, steps).expired <==> IsMarked(steps, id)
  {
    if steps != [] {
      var init, last := steps[..|steps| - 1], steps[|steps| - 1];
      assert steps == init + [last];
      RunMore(Start, init, last);
      MarkAbsorbsOneReply(init, id);
      MarkInMore(init, last, id);
      MarkMoves(Execute(Start, init), last, id);
    }
  }

  lemma MarkMoves(s: State, step: Step, id: Id)
    requires Enabled(s, step)
    ensures id in Apply(s, step).expired <==>
            || (id in s.expired && step != ReadReply(id))
            || (step.MarkExpired? && s.calls[step.c].id == id)
  {
  }

  /** A request whose one reply arrives in time returns it. */
  lemma AnswerIsReturned()
    ensures var steps := AnswerThen([Leave(0)] + []);
            && IsRun(Start, steps)
            && 0 in Execute(Start, steps).calls && Execute(Start, steps).calls[0] == Gone(0, Answered(Rpc(0, 0)))
  {
    var s := AfterAnswer();
    var end := Apply(s, Leave(0));
    RunPrepend(s, Leave(0), [], end);
    AnswerRuns([Leave(0)] + [], end);
  }
}
