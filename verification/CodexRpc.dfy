/**
 The request/response driver of the Codex app-server connection, as a state machine
 whose steps are the lock sections and the queue operations of its threads.
 Replies are matched to requests by id (section 5, Response object, JSON-RPC 2.0).
 */
module CodexRpc {
  import opened Sequences

  type Id = nat
  type Call = nat    // one invocation of the request function
  type Setter = nat  // one invocation of the fatal-error function
  type Error = nat

  /** What a requester can take out of its one-slot queue; n numbers the messages on the wire. */
  datatype Reply = Rpc(id: Id, n: nat) | Fatal(error: Error)

  datatype Outcome = Answered(reply: Reply) | TimedOut | SendFailed | Refused

  datatype Pc =
    | Allocated(id: Id)               // holds an id, not yet registered
    | Sending(id: Id)                 // registered, message not yet written
    | SendBroken(id: Id)              // the write or the flush failed
    | Waiting(id: Id)                 // blocked on its queue
    | Expiring(id: Id)                // the wait timed out, the id is not yet marked
    | Leaving(id: Id, outcome: Outcome)  // about to remove its registration
    | Gone(id: Id, outcome: Outcome)

  datatype SetterPc =
    | Entered(error: Error)                    // the sticky error is decided
    | Waking(error: Error, todo: set<Id>)      // the registered queues are copied
    | Finished(error: Error)

  datatype Reader = Idle | Holding(id: Id, n: nat) | Complaining

  datatype State = State(
    nextId: Id, fatal: Option<Error>,
    pending: set<Id>, queues: map<Id, Option<Reply>>, expired: set<Id>,
    calls: map<Call, Pc>, setters: map<Setter, SetterPc>, reader: Reader,
    sent: map<Id, Call>,    // ids whose message may have reached the server, and who sent it
    replies: seq<Id>)       // the ids of the replies read so far, in wire order

  const Start := State(0, None, {}, map[], {}, map[], map[], Idle, map[], [])

  datatype Step =
    | Allocate(c: Call) | Register(c: Call) | Send(c: Call) | FailBeforeWrite(c: Call) | FailWrite(c: Call)
    | FailRecord(c: Call) | BreakPipe(c: Call, t: Setter, e: Error)
    | Get(c: Call) | TimeOut(c: Call) | MarkExpired(c: Call) | Leave(c: Call)
    | SetFatal(t: Setter, e: Error) | CopyPending(t: Setter) | PutFatal(t: Setter, q: Id) | Finish(t: Setter)
    | ReadReply(id: Id) | PutReply | Complain(t: Setter, e: Error)

  predicate Enabled(s: State, step: Step) {
    match step
    case Allocate(c) => c !in s.calls
    case Register(c) => c in s.calls && s.calls[c].Allocated?
    case Send(c) => c in s.calls && s.calls[c].Sending?
    case FailBeforeWrite(c) => c in s.calls && s.calls[c].Sending?
    case FailWrite(c) => c in s.calls && s.calls[c].Sending?
    case FailRecord(c) => c in s.calls && s.calls[c].Sending?
    case BreakPipe(c, t, _) => c in s.calls && s.calls[c].SendBroken? && t !in s.setters
    case Get(c) => c in s.calls && s.calls[c].Waiting? && s.calls[c].id in s.queues && s.queues[s.calls[c].id].Some?
    case TimeOut(c) => c in s.calls && s.calls[c].Waiting? && s.calls[c].id in s.queues && s.queues[s.calls[c].id].None?
    case MarkExpired(c) => c in s.calls && s.calls[c].Expiring?
    case Leave(c) => c in s.calls && s.calls[c].Leaving?
    case SetFatal(t, _) => t !in s.setters
    case CopyPending(t) => t in s.setters && s.setters[t].Entered?
    case PutFatal(t, q) => t in s.setters && s.setters[t].Waking? && q in s.setters[t].todo && q in s.queues
    case Finish(t) => t in s.setters && s.setters[t].Waking? && s.setters[t].todo == {}
    case ReadReply(_) => s.reader.Idle?
    case PutReply => s.reader.Holding? && s.reader.id in s.queues
    case Complain(t, _) => s.reader.Complaining? && t !in s.setters
  }

  /** The first lock section of the fatal-error function. */
  function WithFatal(s: State, t: Setter, e: Error): State {
    var first := if s.fatal.Some? then s.fatal.value else e;
    s.(fatal := Some(first), setters := s.setters[t := Entered(first)])
  }

  function Apply(s: State, step: Step): State
    requires Enabled(s, step)
  {
    match step
    case Allocate(c) => s.(calls := s.calls[c := Allocated(s.nextId)], nextId := s.nextId + 1)
    case Register(c) =>
      var id := s.calls[c].id;
      if s.fatal.Some? then s.(calls := s.calls[c := Gone(id, Refused)])
      else s.(calls := s.calls[c := Sending(id)], pending := s.pending + {id}, queues := s.queues[id := None])
    case Send(c) =>
      s.(calls := s.calls[c := Waiting(s.calls[c].id)], sent := s.sent[s.calls[c].id := c])
    case FailBeforeWrite(c) =>
      s.(calls := s.calls[c := Leaving(s.calls[c].id, SendFailed)])
    case FailWrite(c) =>
      s.(calls := s.calls[c := SendBroken(s.calls[c].id)], sent := s.sent[s.calls[c].id := c])
    case FailRecord(c) =>
      // The message was written, but recording it failed with an error that is not caught there.
      s.(calls := s.calls[c := Leaving(s.calls[c].id, SendFailed)], sent := s.sent[s.calls[c].id := c])
    case BreakPipe(c, t, e) =>
      WithFatal(s, t, e).(calls := s.calls[c := Leaving(s.calls[c].id, SendFailed)])
    case Get(c) =>
      var id := s.calls[c].id;
      s.(calls := s.calls[c := Leaving(id, Answered(s.queues[id].value))], queues := s.queues[id := None])
    case TimeOut(c) =>
      s.(calls := s.calls[c := Expiring(s.calls[c].id)])
    case MarkExpired(c) =>
      var id := s.calls[c].id;
      s.(calls := s.calls[c := Leaving(id, TimedOut)], expired := s.expired + {id})
    case Leave(c) =>
      s.(calls := s.calls[c := Gone(s.calls[c].id, s.calls[c].outcome)], pending := s.pending - {s.calls[c].id})
    case SetFatal(t, e) => WithFatal(s, t, e)
    case CopyPending(t) =>
      s.(setters := s.setters[t := Waking(s.setters[t].error, s.pending)])
    case PutFatal(t, q) =>
      var w := s.setters[t];
      s.(setters := s.setters[t := Waking(w.error, w.todo - {q})],
         queues := if s.queues[q].None? then s.queues[q := Some(Fatal(w.error))] else s.queues)
    case Finish(t) => s.(setters := s.setters[t := Finished(s.setters[t].error)])
    case ReadReply(id) =>
      var reader :=
        if id in s.expired then Idle
        else if id in s.pending then Holding(id, |s.replies|)
        else Complaining;
      s.(reader := reader, expired := s.expired - {id}, replies := s.replies + [id])
    case PutReply =>
      var id, n := s.reader.id, s.reader.n;
      if s.queues[id].None? then s.(queues := s.queues[id := Some(Rpc(id, n))], reader := Idle)
      else s.(reader := Complaining)
    case Complain(t, e) => WithFatal(s, t, e).(reader := Idle)
  }

  // ----- Invariant -----

  predicate Registered(pc: Pc) {
    pc.Sending? || pc.SendBroken? || pc.Waiting? || pc.Expiring? || pc.Leaving?
  }

  /** Ids are below the counter and belong to one call each. */
  ghost predicate IdsAreUnique(s: State) {
    && (forall c :: c in s.calls ==> s.calls[c].id < s.nextId)
    && (forall c, d :: c in s.calls && d in s.calls && s.calls[c].id == s.calls[d].id ==> c == d)
  }

  ghost predicate PendingIsRegistered(s: State) {
    && (forall c :: c in s.calls && Registered(s.calls[c]) ==> s.calls[c].id in s.pending && s.calls[c].id in s.queues)
    && (forall id :: id in s.pending ==> id in s.queues)
    && (forall id :: id in s.queues ==> id < s.nextId)
    && (forall c :: c in s.calls && s.calls[c].Allocated? ==> s.calls[c].id !in s.queues)
  }

  /** A reply is for the request it answers, and a fatal reply carries the sticky error. */
  ghost predicate Matches(s: State, id: Id, reply: Reply) {
    match reply
    case Rpc(i, n) => i == id && n < |s.replies| && s.replies[n] == id
    case Fatal(e) => s.fatal == Some(e)
  }

  function ErrorOf(w: SetterPc): Error {
    w.error
  }

  ghost predicate RepliesMatch(s: State) {
    && (forall id :: id in s.queues && s.queues[id].Some? ==> Matches(s, id, s.queues[id].value))
    && (forall c :: c in s.calls && (s.calls[c].Leaving? || s.calls[c].Gone?) && s.calls[c].outcome.Answered? ==>
          Matches(s, s.calls[c].id, s.calls[c].outcome.reply))
    && (forall t :: t in s.setters ==> s.fatal == Some(ErrorOf(s.setters[t])))
    && (s.reader.Holding? ==>
          s.reader.id in s.queues && s.reader.n == |s.replies| - 1 && s.replies[s.reader.n] == s.reader.id)
    && (s.reader.Holding? ==> forall id :: id in s.queues && s.queues[id].Some? && s.queues[id].value.Rpc? ==>
          s.queues[id].value.n < s.reader.n)
  }

  predicate MayStillWait(pc: Pc) {
    pc.Sending? || pc.SendBroken? || pc.Waiting?
  }

  /** Every queue someone may wait on is full, or one this setter is still going to fill. */
  ghost predicate Covers(s: State, todo: set<Id>) {
    forall c :: c in s.calls && MayStillWait(s.calls[c]) ==>
      s.calls[c].id in todo || (s.calls[c].id in s.queues && s.queues[s.calls[c].id].Some?)
  }

  ghost predicate NobodyForgotten(s: State) {
    && (forall t :: t in s.setters && s.setters[t].Waking? ==>
          s.setters[t].todo <= s.queues.Keys && Covers(s, s.setters[t].todo))
    && (forall t :: t in s.setters && s.setters[t].Finished? ==> Covers(s, {}))
  }

  ghost predicate Inv(s: State) {
    IdsAreUnique(s) && PendingIsRegistered(s) && RepliesMatch(s) && NobodyForgotten(s)
  }

  // ----- Each group of steps keeps each part of the invariant -----

  predicate IsOpening(step: Step) {
    || step.Allocate? || step.Register? || step.Send?
    || step.FailBeforeWrite? || step.FailWrite? || step.FailRecord? || step.BreakPipe?
  }

  predicate IsClosing(step: Step) {
    step.Get? || step.TimeOut? || step.MarkExpired? || step.Leave?
  }

  predicate IsWaking(step: Step) {
    step.SetFatal? || step.CopyPending? || step.PutFatal? || step.Finish?
  }

  predicate IsReading(step: Step) {
    step.ReadReply? || step.PutReply? || step.Complain?
  }

  lemma CallsKeepTheirIds(s: State, step: Step)
    requires Enabled(s, step)
    ensures s.nextId <= Apply(s, step).nextId
    ensures forall c :: c in s.calls ==> c in Apply(s, step).calls && Apply(s, step).calls[c].id == s.calls[c].id
    ensures forall c :: c in Apply(s, step).calls && c !in s.calls ==>
              step == Allocate(c) && Apply(s, step).calls[c].id == s.nextId < Apply(s, step).nextId
  {
  }

  lemma StepKeepsIds(s: State, step: Step)
    requires IdsAreUnique(s) && Enabled(s, step)
    ensures IdsAreUnique(Apply(s, step))
  {
    CallsKeepTheirIds(s, step);
  }

  lemma OpeningKeepsPending(s: State, step: Step)
    requires IdsAreUnique(s) && PendingIsRegistered(s) && Enabled(s, step) && IsOpening(step)
    ensures PendingIsRegistered(Apply(s, step))
  {
  }

  lemma ClosingKeepsPending(s: State, step: Step)
    requires IdsAreUnique(s) && PendingIsRegistered(s) && Enabled(s, step) && IsClosing(step)
    ensures PendingIsRegistered(Apply(s, step))
  {
  }

  lemma WakingKeepsPending(s: State, step: Step)
    requires IdsAreUnique(s) && PendingIsRegistered(s) && Enabled(s, step) && IsWaking(step)
    ensures PendingIsRegistered(Apply(s, step))
  {
  }

  lemma ReadingKeepsPending(s: State, step: Step)
    requires IdsAreUnique(s) && PendingIsRegistered(s) && Enabled(s, step) && IsReading(step)
    ensures PendingIsRegistered(Apply(s, step))
  {
  }

  lemma OpeningKeepsReplies(s: State, step: Step)
    requires IdsAreUnique(s) && PendingIsRegistered(s) && RepliesMatch(s) && Enabled(s, step) && IsOpening(step)
    ensures RepliesMatch(Apply(s, step))
  {
  }

  lemma ClosingKeepsReplies(s: State, step: Step)
    requires IdsAreUnique(s) && PendingIsRegistered(s) && RepliesMatch(s) && Enabled(s, step) && IsClosing(step)
    ensures RepliesMatch(Apply(s, step))
  {
  }

  lemma WakingKeepsReplies(s: State, step: Step)
    requires IdsAreUnique(s) && PendingIsRegistered(s) && RepliesMatch(s) && Enabled(s, step) && IsWaking(step)
    ensures RepliesMatch(Apply(s, step))
  {
  }

  lemma DeliveryKeepsReplies(s: State, step: Step)
    requires IdsAreUnique(s) && PendingIsRegistered(s) && RepliesMatch(s) && Enabled(s, step) && step.PutReply?
    ensures RepliesMatch(Apply(s, step))
  {
  }

  lemma ReadingKeepsReplies(s: State, step: Step)
    requires IdsAreUnique(s) && PendingIsRegistered(s) && RepliesMatch(s) && Enabled(s, step) && IsReading(step)
    ensures RepliesMatch(Apply(s, step))
  {
    if step.PutReply? { DeliveryKeepsReplies(s, step); }
  }

  lemma OpeningKeepsWaiters(s: State, step: Step)
    requires IdsAreUnique(s) && PendingIsRegistered(s) && NobodyForgotten(s) && RepliesMatch(s)
    requires Enabled(s, step) && IsOpening(step)
    ensures NobodyForgotten(Apply(s, step))
  {
  }

  lemma ClosingKeepsWaiters(s: State, step: Step)
    requires IdsAreUnique(s) && PendingIsRegistered(s) && NobodyForgotten(s) && RepliesMatch(s)
    requires Enabled(s, step) && IsClosing(step)
    ensures NobodyForgotten(Apply(s, step))
  {
  }

  lemma WakingKeepsWaiters(s: State, step: Step)
    requires IdsAreUnique(s) && PendingIsRegistered(s) && NobodyForgotten(s) && RepliesMatch(s)
    requires Enabled(s, step) && IsWaking(step)
    ensures NobodyForgotten(Apply(s, step))
  {
  }

  lemma ReadingKeepsWaiters(s: State, step: Step)
    requires IdsAreUnique(s) && PendingIsRegistered(s) && NobodyForgotten(s) && RepliesMatch(s)
    requires Enabled(s, step) && IsReading(step)
    ensures NobodyForgotten(Apply(s, step))
  {
  }

  lemma StepKeepsInv(s: State, step: Step)
    requires Inv(s) && Enabled(s, step)
    ensures Inv(Apply(s, step))
  {
    StepKeepsIds(s, step);
    if IsOpening(step) {
      OpeningKeepsPending(s, step);
      OpeningKeepsReplies(s, step);
      OpeningKeepsWaiters(s, step);
    } else if IsClosing(step) {
      ClosingKeepsPending(s, step);
      ClosingKeepsReplies(s, step);
      ClosingKeepsWaiters(s, step);
    } else if IsWaking(step) {
      WakingKeepsPending(s, step);
      WakingKeepsReplies(s, step);
      WakingKeepsWaiters(s, step);
    } else {
      ReadingKeepsPending(s, step);
      ReadingKeepsReplies(s, step);
      ReadingKeepsWaiters(s, step);
    }
  }

  // ----- Whole runs -----

  ghost predicate IsRun(s: State, steps: seq<Step>)
    decreases |steps|
  {
    steps == [] || (Enabled(s, steps[0]) && IsRun(Apply(s, steps[0]), steps[1..]))
  }

  function Execute(s: State, steps: seq<Step>): State
    requires IsRun(s, steps)
    decreases |steps|
  {
    if steps == [] then s else Execute(Apply(s, steps[0]), steps[1..])
  }

  lemma {:induction false} RunKeepsInv(s: State, steps: seq<Step>)
    requires Inv(s) && IsRun(s, steps)
    ensures Inv(Execute(s, steps))
    decreases |steps|
  {
    if steps != [] {
      StepKeepsInv(s, steps[0]);
      RunKeepsInv(Apply(s, steps[0]), steps[1..]);
    }
  }

  /** Once any fatal-error call has finished, every requester still waiting finds its queue full. */
  lemma NoLostWakeup(steps: seq<Step>, t: Setter, c: Call)
    requires IsRun(Start, steps)
    requires var s := Execute(Start, steps);
             t in s.setters && s.setters[t].Finished? && c in s.calls && s.calls[c].Waiting?
    ensures Enabled(Execute(Start, steps), Get(c))
  {
    RunKeepsInv(Start, steps);
    var s := Execute(Start, steps);
    assert Covers(s, {});
  }

  /** The first fatal error stays, and everyone told about a fatal error is told that one. */
  lemma {:induction false} FirstErrorIsSticky(s: State, steps: seq<Step>)
    requires Inv(s) && IsRun(s, steps) && s.fatal.Some?
    ensures Execute(s, steps).fatal == s.fatal
    ensures forall c :: c in Execute(s, steps).calls ==>
              var pc := Execute(s, steps).calls[c];
              pc.Gone? && pc.outcome.Answered? && pc.outcome.reply.Fatal? ==> s.fatal == Some(pc.outcome.reply.error)
    decreases |steps|
  {
    if steps != [] {
      StepKeepsInv(s, steps[0]);
      assert Apply(s, steps[0]).fatal == s.fatal;
      FirstErrorIsSticky(Apply(s, steps[0]), steps[1..]);
    }
  }

  /** A reply reaches only the requester with its id, and no message reaches two requesters. */
  lemma RepliesAreCorrelated(steps: seq<Step>, c: Call, d: Call)
    requires IsRun(Start, steps)
    requires var s := Execute(Start, steps);
             && c in s.calls && d in s.calls
             && s.calls[c].Gone? && s.calls[c].outcome.Answered? && s.calls[c].outcome.reply.Rpc?
             && s.calls[d].Gone? && s.calls[d].outcome.Answered? && s.calls[d].outcome.reply.Rpc?
    ensures var s := Execute(Start, steps);
            && s.calls[c].outcome.reply.id == s.calls[c].id
            && s.calls[c].outcome.reply.n < |s.replies| && s.replies[s.calls[c].outcome.reply.n] == s.calls[c].id
            && (s.calls[c].outcome.reply.n == s.calls[d].outcome.reply.n ==> c == d)
            && (s.calls[c].id == s.calls[d].id ==> c == d)
  {
    RunKeepsInv(Start, steps);
  }

  // ----- When a reply is fatal -----

  /** A call that still has its queue registered. */
  ghost predicate Holds(s: State, c: Call, id: Id) {
    c in s.calls && s.calls[c].id == id && Registered(s.calls[c])
  }

  ghost predicate NobodyHolds(s: State, id: Id) {
    forall c :: !Holds(s, c, id)
  }

  predicate IsTimedOut(pc: Pc) {
    (pc.Leaving? || pc.Gone?) && pc.outcome.TimedOut?
  }

  /** Registered queues have a call, and only the ids of timed-out calls are marked. */
  ghost predicate HistoryInv(s: State) {
    && Inv(s)
    && (forall id :: id in s.pending ==> !NobodyHolds(s, id))
    && (forall id :: id in s.expired ==> exists c :: MarkedFor(s, id, c))
  }

  lemma HolderStays(s: State, step: Step, c: Call, id: Id)
    requires IdsAreUnique(s) && Enabled(s, step) && Holds(s, c, id) && id in Apply(s, step).pending
    ensures Holds(Apply(s, step), c, id)
  {
  }

  lemma PendingStaysHeld(s: State, step: Step, id: Id)
    requires HistoryInv(s) && Enabled(s, step) && id in Apply(s, step).pending
    ensures !NobodyHolds(Apply(s, step), id)
  {
    if id in s.pending {
      var c :| Holds(s, c, id);
      HolderStays(s, step, c, id);
    } else {
      assert Holds(Apply(s, step), step.c, id);
    }
  }

  ghost predicate MarkedFor(s: State, id: Id, c: Call) {
    c in s.calls && s.calls[c].id == id && IsTimedOut(s.calls[c])
  }

  lemma TimedOutStays(s: State, step: Step, id: Id, c: Call)
    requires Enabled(s, step) && MarkedFor(s, id, c)
    ensures MarkedFor(Apply(s, step), id, c)
  {
  }

  lemma MarkedStaysTimedOut(s: State, step: Step, id: Id)
    requires HistoryInv(s) && Enabled(s, step) && id in Apply(s, step).expired
    ensures exists c :: MarkedFor(Apply(s, step), id, c)
  {
    if id in s.expired {
      var c :| MarkedFor(s, id, c);
      TimedOutStays(s, step, id, c);
    } else {
      assert MarkedFor(Apply(s, step), id, step.c);
    }
  }

  lemma StepKeepsHistory(s: State, step: Step)
    requires HistoryInv(s) && Enabled(s, step)
    ensures HistoryInv(Apply(s, step))
  {
    StepKeepsInv(s, step);
    forall id | id in Apply(s, step).pending
      ensures !NobodyHolds(Apply(s, step), id)
    {
      PendingStaysHeld(s, step, id);
    }
    forall id | id in Apply(s, step).expired
      ensures exists c :: MarkedFor(Apply(s, step), id, c)
    {
      MarkedStaysTimedOut(s, step, id);
    }
  }

  lemma {:induction false} RunKeepsHistory(s: State, steps: seq<Step>)
    requires HistoryInv(s) && IsRun(s, steps)
    ensures HistoryInv(Execute(s, steps))
    decreases |steps|
  {
    if steps != [] {
      StepKeepsHistory(s, steps[0]);
      RunKeepsHistory(Apply(s, steps[0]), steps[1..]);
    }
  }

  predicate LeavesReader(steps: seq<Step>) {
    forall k :: 0 <= k < |steps| ==> !IsReading(steps[k])
  }

  /** While the reader pauses, nobody else moves it. */
  lemma {:induction false} ReaderWaits(s: State, steps: seq<Step>)
    requires IsRun(s, steps) && LeavesReader(steps)
    ensures Execute(s, steps).reader == s.reader && Execute(s, steps).replies == s.replies
    decreases |steps|
  {
    if steps != [] {
      ReaderWaits(Apply(s, steps[0]), steps[1..]);
    }
  }

  /** The reader reads a reply, others take the steps given, and then it puts the reply if it has found a queue. */
  ghost predicate Complains(s: State, id: Id, others: seq<Step>)
    requires s.reader.Idle? && IsRun(Apply(s, ReadReply(id)), others)
  {
    var r := Execute(Apply(s, ReadReply(id)), others);
    r.reader.Complaining? || (Enabled(r, PutReply) && Apply(r, PutReply).reader.Complaining?)
  }

  /** The call with a marked id has timed out, and the call with a pending id is registered. */
  lemma CallOfId(s: State, c: Call)
    requires HistoryInv(s) && c in s.calls
    ensures s.calls[c].id in s.expired ==> IsTimedOut(s.calls[c])
    ensures s.calls[c].id in s.pending ==> Registered(s.calls[c])
  {
    var id := s.calls[c].id;
    if id in s.expired {
      var d :| MarkedFor(s, id, d);
    }
    if id in s.pending {
      var d :| Holds(s, d, id);
    }
  }

  lemma PendingIsHeld(s: State, id: Id)
    requires HistoryInv(s)
    ensures id in s.pending <==> !NobodyHolds(s, id)
  {
    if !NobodyHolds(s, id) {
      var c :| Holds(s, c, id);
    }
  }

  lemma LookUpDecides(s: State, id: Id, others: seq<Step>)
    requires HistoryInv(s) && s.reader.Idle?
    requires IsRun(Apply(s, ReadReply(id)), others) && LeavesReader(others)
    ensures var r := Execute(Apply(s, ReadReply(id)), others);
            && (r.reader
                == if id in s.expired then Idle else if id in s.pending then Holding(id, |s.replies|) else Complaining)
            && (r.reader.Holding? ==> Enabled(r, PutReply))
  {
    StepKeepsHistory(s, ReadReply(id));
    RunKeepsHistory(Apply(s, ReadReply(id)), others);
    ReaderWaits(Apply(s, ReadReply(id)), others);
  }

  /**
   In every reachable state, and whatever happens between the look-up and the put: a reply is an
   error for the reader exactly when its id is not marked as expired and either no call holds the
   id, or the queue is full when the reply is put.
   */
  lemma ReplyIsFatalExactlyWhen(steps: seq<Step>, id: Id, others: seq<Step>)
    requires IsRun(Start, steps) && Execute(Start, steps).reader.Idle?
    requires IsRun(Apply(Execute(Start, steps), ReadReply(id)), others) && LeavesReader(others)
    ensures var s := Execute(Start, steps); var r := Execute(Apply(s, ReadReply(id)), others);
            Complains(s, id, others) <==>
              id !in s.expired && (NobodyHolds(s, id) || (id in r.queues && r.queues[id].Some?))
  {
    var s := Execute(Start, steps);
    RunKeepsHistory(Start, steps);
    LookUpDecides(s, id, others);
    PendingIsHeld(s, id);
  }

  /** A full queue, as long as no error is fatal, holds an earlier reply to the same id that nobody has taken. */
  lemma FullQueueHoldsEarlierReply(s: State)
    requires HistoryInv(s) && s.fatal.None? && s.reader.Holding?
    requires s.reader.id in s.queues && s.queues[s.reader.id].Some?
    ensures exists m :: 0 <= m < s.reader.n < |s.replies| && s.replies[m] == s.reader.id
                        && s.queues[s.reader.id] == Some(Rpc(s.reader.id, m))
  {
    assert Matches(s, s.reader.id, s.queues[s.reader.id].value);
  }

  /** A complaint leaves a fatal error, its own if there was none. */
  lemma ComplaintSetsFatal(s: State, t: Setter, e: Error)
    requires s.reader.Complaining? && t !in s.setters
    ensures Enabled(s, Complain(t, e))
    ensures Apply(s, Complain(t, e)).fatal == if s.fatal.Some? then s.fatal else Some(e)
  {
  }

  /** Only timed-out calls are marked, so any reply to a call that was answered and has left ends in a fatal error. */
  lemma ReplyAfterAnswerIsFatal(steps: seq<Step>, c: Call, others: seq<Step>)
    requires IsRun(Start, steps)
    requires var s := Execute(Start, steps);
             && s.fatal.None? && s.reader.Idle?
             && c in s.calls && s.calls[c].Gone? && s.calls[c].outcome.Answered?
             && IsRun(Apply(s, ReadReply(s.calls[c].id)), others) && LeavesReader(others)
    ensures var s := Execute(Start, steps);
            && s.calls[c].id !in s.expired && NobodyHolds(s, s.calls[c].id)
            && Complains(s, s.calls[c].id, others)
    ensures var s := Execute(Start, steps); var r := Execute(Apply(s, ReadReply(s.calls[c].id)), others);
            forall t, e :: t !in r.setters ==>
              && Enabled(r, Complain(t, e))
              && Apply(r, Complain(t, e)).fatal == if r.fatal.Some? then r.fatal else Some(e)
  {
    var s := Execute(Start, steps);
    RunKeepsHistory(Start, steps);
    CallOfId(s, c);
    PendingIsHeld(s, s.calls[c].id);
    ReplyIsFatalExactlyWhen(steps, s.calls[c].id, others);
    LookUpDecides(s, s.calls[c].id, others);
    var r := Execute(Apply(s, ReadReply(s.calls[c].id)), others);
    forall t, e | t !in r.setters
      ensures Enabled(r, Complain(t, e))
      ensures Apply(r, Complain(t, e)).fatal == if r.fatal.Some? then r.fatal else Some(e)
    {
      ComplaintSetsFatal(r, t, e);
    }
  }

  /** Until the answered call removes its registration, one more reply goes unnoticed. */
  lemma ReplyBeforeRemovalIsDropped(s: State, c: Call)
    requires HistoryInv(s) && s.fatal.None? && s.reader.Idle?
    requires c in s.calls && s.calls[c].Leaving? && s.calls[c].outcome.Answered?
    requires s.queues[s.calls[c].id].None?
    ensures var t := Apply(s, ReadReply(s.calls[c].id));
            && Enabled(t, PutReply) && Apply(t, PutReply).reader.Idle? && Apply(t, PutReply).fatal.None?
            && Apply(t, PutReply).calls == s.calls
  {
    CallOfId(s, c);
  }

  // ----- Late replies -----

  /** The server answers a request it was sent, and answers it once. */
  predicate Disciplined(s: State, step: Step) {
    step.ReadReply? ==> step.id in s.sent && step.id !in s.replies
  }

  ghost predicate IsDisciplinedRun(s: State, steps: seq<Step>)
    decreases |steps|
  {
    steps == [] ||
    (Enabled(s, steps[0]) && Disciplined(s, steps[0]) && IsDisciplinedRun(Apply(s, steps[0]), steps[1..]))
  }

  /** What each call's position says about its reply, as long as no fatal error is set. */
  ghost predicate Placed(s: State, pc: Pc) {
    match pc
    case Allocated(id) => id !in s.sent
    case Sending(id) => id !in s.sent
    case SendBroken(_) => true
    case Waiting(_) => true
    case Expiring(_) => true
    case Leaving(id, outcome) => s.fatal.Some? || Settled(s, id, outcome)
    case Gone(id, outcome) => s.fatal.Some? || Settled(s, id, outcome)
  }

  ghost predicate Settled(s: State, id: Id, outcome: Outcome) {
    match outcome
    case Answered(_) => id in s.replies
    case TimedOut => id in s.expired || id in s.replies
    case SendFailed => true
    case Refused => false
  }

  /** Sent, but the call left on an error of recording the message. */
  predicate Lost(s: State, id: Id) {
    id in s.sent && s.sent[id] in s.calls && s.calls[s.sent[id]] == Gone(id, SendFailed)
  }

  ghost predicate SentIsKnown(s: State) {
    forall id :: id in s.sent ==> s.sent[id] in s.calls && s.calls[s.sent[id]].id == id
  }

  ghost predicate EveryoneIsPlaced(s: State) {
    forall c :: c in s.calls ==> Placed(s, s.calls[c])
  }

  /** With no fatal error set, the reader complains only about a reply to a lost request. */
  ghost predicate ComplaintIsOfLost(s: State) {
    s.reader.Complaining? && s.fatal.None? ==> s.replies != [] && Lost(s, s.replies[|s.replies| - 1])
  }

  ghost predicate LateInv(s: State) {
    HistoryInv(s) && SentIsKnown(s) && EveryoneIsPlaced(s) && Distinct(s.replies) && ComplaintIsOfLost(s)
  }

  /** With no fatal error set, a first reply to a sent request finds a queue or an expired mark, unless it was lost. */
  lemma FirstReplyHasAPlace(s: State, id: Id)
    requires LateInv(s) && id in s.sent && id !in s.replies && s.fatal.None?
    ensures id in s.expired || id in s.pending || Lost(s, id)
    ensures Lost(s, id) ==> id !in s.expired && id !in s.pending
  {
    assert Placed(s, s.calls[s.sent[id]]);
    CallOfId(s, s.sent[id]);
  }

  predicate IsFailing(step: Step) {
    step.FailBeforeWrite? || step.FailWrite? || step.FailRecord? || step.BreakPipe?
  }

  lemma FailingKeepsPlaces(s: State, step: Step)
    requires IdsAreUnique(s) && SentIsKnown(s) && EveryoneIsPlaced(s)
    requires Enabled(s, step) && Disciplined(s, step) && IsFailing(step)
    ensures EveryoneIsPlaced(Apply(s, step))
  {
  }

  lemma OpeningKeepsPlaces(s: State, step: Step)
    requires IdsAreUnique(s) && SentIsKnown(s) && EveryoneIsPlaced(s)
    requires Enabled(s, step) && Disciplined(s, step) && IsOpening(step)
    ensures EveryoneIsPlaced(Apply(s, step))
  {
    if IsFailing(step) { FailingKeepsPlaces(s, step); }
  }

  lemma ClosingKeepsPlaces(s: State, step: Step)
    requires IdsAreUnique(s) && RepliesMatch(s) && EveryoneIsPlaced(s)
    requires Enabled(s, step) && Disciplined(s, step) && IsClosing(step)
    ensures EveryoneIsPlaced(Apply(s, step))
  {
  }

  lemma WakingKeepsPlaces(s: State, step: Step)
    requires IdsAreUnique(s) && EveryoneIsPlaced(s) && Enabled(s, step) && Disciplined(s, step) && IsWaking(step)
    ensures EveryoneIsPlaced(Apply(s, step))
  {
  }

  lemma ReadingKeepsPlaces(s: State, step: Step)
    requires IdsAreUnique(s) && EveryoneIsPlaced(s) && Enabled(s, step) && Disciplined(s, step) && IsReading(step)
    ensures EveryoneIsPlaced(Apply(s, step))
  {
  }

  lemma StepKeepsSent(s: State, step: Step)
    requires SentIsKnown(s) && Distinct(s.replies) && Enabled(s, step) && Disciplined(s, step)
    ensures SentIsKnown(Apply(s, step)) && Distinct(Apply(s, step).replies)
  {
    CallsKeepTheirIds(s, step);
  }

  /** A lost request stays lost. */
  lemma LostStays(s: State, step: Step, id: Id)
    requires SentIsKnown(s) && IdsAreUnique(s) && Enabled(s, step) && Lost(s, id)
    ensures Lost(Apply(s, step), id)
  {
  }

  lemma LookUpComplainsOnlyOfLost(s: State, id: Id)
    requires LateInv(s) && Enabled(s, ReadReply(id)) && Disciplined(s, ReadReply(id))
    ensures ComplaintIsOfLost(Apply(s, ReadReply(id)))
  {
    if s.fatal.None? {
      FirstReplyHasAPlace(s, id);
    }
  }

  lemma PutComplainsOnlyAfterFatal(s: State)
    requires LateInv(s) && Enabled(s, PutReply)
    ensures ComplaintIsOfLost(Apply(s, PutReply))
  {
    assert s.queues[s.reader.id].Some? ==> Matches(s, s.reader.id, s.queues[s.reader.id].value);
  }

  lemma OthersKeepComplaint(s: State, step: Step)
    requires LateInv(s) && Enabled(s, step) && !step.ReadReply? && !step.PutReply?
    ensures ComplaintIsOfLost(Apply(s, step))
  {
    if s.reader.Complaining? && s.fatal.None? {
      LostStays(s, step, s.replies[|s.replies| - 1]);
    }
  }

  lemma ReaderComplainsOnlyOfLost(s: State, step: Step)
    requires LateInv(s) && Enabled(s, step) && Disciplined(s, step)
    ensures ComplaintIsOfLost(Apply(s, step))
  {
    if step.ReadReply? {
      LookUpComplainsOnlyOfLost(s, step.id);
    } else if step.PutReply? {
      PutComplainsOnlyAfterFatal(s);
    } else {
      OthersKeepComplaint(s, step);
    }
  }

  lemma DisciplinedStepKeepsInv(s: State, step: Step)
    requires LateInv(s) && Enabled(s, step) && Disciplined(s, step)
    ensures LateInv(Apply(s, step))
  {
    StepKeepsHistory(s, step);
    if IsOpening(step) {
      OpeningKeepsPlaces(s, step);
    } else if IsClosing(step) {
      ClosingKeepsPlaces(s, step);
    } else if IsWaking(step) {
      WakingKeepsPlaces(s, step);
    } else {
      ReadingKeepsPlaces(s, step);
    }
    StepKeepsSent(s, step);
    ReaderComplainsOnlyOfLost(s, step);
  }

  lemma {:induction false} DisciplinedRunKeepsInv(s: State, steps: seq<Step>)
    requires LateInv(s) && IsDisciplinedRun(s, steps)
    ensures IsRun(s, steps) && LateInv(Execute(s, steps))
    decreases |steps|
  {
    if steps != [] {
      DisciplinedStepKeepsInv(s, steps[0]);
      DisciplinedRunKeepsInv(Apply(s, steps[0]), steps[1..]);
    }
  }

  lemma ReaderSetsFatalOnlyForLost(s: State, step: Step)
    requires ComplaintIsOfLost(s) && Enabled(s, step) && IsReading(step)
    ensures || Apply(s, step).fatal == s.fatal
            || (step.Complain? && s.replies != [] && Lost(s, s.replies[|s.replies| - 1]))
  {
  }

  /**
   However late a single reply arrives (before the timeout, between the timeout and the expiry mark,
   between the mark and the removal, or after it), no step of the reader sets the fatal error. The one
   exception is a reply to a request that was sent and then given up because recording it failed.
   */
  lemma LateReplyIsHarmless(steps: seq<Step>, step: Step)
    requires IsDisciplinedRun(Start, steps)
    requires IsRun(Start, steps) && Enabled(Execute(Start, steps), step)
    requires IsReading(step)
    ensures var s := Execute(Start, steps);
            || Apply(s, step).fatal == s.fatal
            || (step.Complain? && s.replies != [] && Lost(s, s.replies[|s.replies| - 1]))
  {
    DisciplinedRunKeepsInv(Start, steps);
    ReaderSetsFatalOnlyForLost(Execute(Start, steps), step);
  }

  lemma FirstReplyComplainsExactlyWhenLost(s: State, id: Id)
    requires LateInv(s) && s.fatal.None? && s.reader.Idle? && id in s.sent && id !in s.replies
    ensures Apply(s, ReadReply(id)).reader.Complaining? <==> Lost(s, id)
  {
    FirstReplyHasAPlace(s, id);
  }

  /** With one reply per request, reading a reply is an error exactly for a lost request. */
  lemma SingleReplyIsFatalExactlyWhenLost(steps: seq<Step>, id: Id)
    requires IsDisciplinedRun(Start, steps) && IsRun(Start, steps)
    requires var s := Execute(Start, steps); s.fatal.None? && s.reader.Idle? && id in s.sent && id !in s.replies
    ensures var s := Execute(Start, steps); Apply(s, ReadReply(id)).reader.Complaining? <==> Lost(s, id)
  {
    DisciplinedRunKeepsInv(Start, steps);
    FirstReplyComplainsExactlyWhenLost(Execute(Start, steps), id);
  }

  // ----- Three runs -----

  lemma RunPrepend(s: State, step: Step, rest: seq<Step>, end: State)
    requires Enabled(s, step) && IsRun(Apply(s, step), rest) && Execute(Apply(s, step), rest) == end
    ensures IsRun(s, [step] + rest) && Execute(s, [step] + rest) == end
  {
    assert ([step] + rest)[1..] == rest;
  }

  /** One request, sent, answered and its answer taken; then the rest. */
  function AnswerThen(rest: seq<Step>): seq<Step> {
    [Allocate(0)] + ([Register(0)] + ([Send(0)] + ([ReadReply(0)] + ([PutReply] + ([Get(0)] + rest)))))
  }

  function AfterAnswer(): State {
    var s1 := Apply(Start, Allocate(0));
    var s2 := Apply(s1, Register(0));
    var s3 := Apply(s2, Send(0));
    var s4 := Apply(s3, ReadReply(0));
    var s5 := Apply(s4, PutReply);
    Apply(s5, Get(0))
  }

  lemma AnswerRuns(rest: seq<Step>, end: State)
    requires IsRun(AfterAnswer(), rest) && Execute(AfterAnswer(), rest) == end
    ensures IsRun(Start, AnswerThen(rest)) && Execute(Start, AnswerThen(rest)) == end
  {
    var s1 := Apply(Start, Allocate(0));
    var s2 := Apply(s1, Register(0));
    var s3 := Apply(s2, Send(0));
    var s4 := Apply(s3, ReadReply(0));
    var s5 := Apply(s4, PutReply);
    var r5 := [Get(0)] + rest;
    var r4 := [PutReply] + r5;
    var r3 := [ReadReply(0)] + r4;
    var r2 := [Send(0)] + r3;
    RunPrepend(s5, Get(0), rest, end);
    RunPrepend(s4, PutReply, r5, end);
    RunPrepend(s3, ReadReply(0), r4, end);
    RunPrepend(s2, Send(0), r3, end);
    RunPrepend(s1, Register(0), r2, end);
    RunPrepend(Start, Allocate(0), [Register(0)] + r2, end);
  }

  /** A second reply after the answered request has left: fatal. */
  lemma SecondReplyIsFatal()
    ensures var steps := AnswerThen([Leave(0)] + ([ReadReply(0)] + ([Complain(0, 7)] + [])));
            IsRun(Start, steps) && Execute(Start, steps).fatal == Some(7)
  {
    var s := AfterAnswer();
    var t := Apply(s, Leave(0));
    var u := Apply(t, ReadReply(0));
    var end := Apply(u, Complain(0, 7));
    RunPrepend(u, Complain(0, 7), [], end);
    RunPrepend(t, ReadReply(0), [Complain(0, 7)] + [], end);
    RunPrepend(s, Leave(0), [ReadReply(0)] + ([Complain(0, 7)] + []), end);
    AnswerRuns([Leave(0)] + ([ReadReply(0)] + ([Complain(0, 7)] + [])), end);
  }

  /** A second reply between taking the answer and leaving: dropped. */
  lemma SecondReplyIsDropped()
    ensures var steps := AnswerThen([ReadReply(0)] + ([PutReply] + ([Leave(0)] + [])));
            && IsRun(Start, steps)
            && Execute(Start, steps).fatal.None? && Execute(Start, steps).reader.Idle?
            && Execute(Start, steps).replies == [0, 0]
  {
    var s := AfterAnswer();
    var t := Apply(s, ReadReply(0));
    var u := Apply(t, PutReply);
    var end := Apply(u, Leave(0));
    RunPrepend(u, Leave(0), [], end);
    RunPrepend(t, PutReply, [Leave(0)] + [], end);
    RunPrepend(s, ReadReply(0), [PutReply] + ([Leave(0)] + []), end);
    AnswerRuns([ReadReply(0)] + ([PutReply] + ([Leave(0)] + [])), end);
  }

  lemma DisciplinedPrepend(s: State, step: Step, rest: seq<Step>, end: State)
    requires Enabled(s, step) && Disciplined(s, step)
    requires IsDisciplinedRun(Apply(s, step), rest) && IsRun(Apply(s, step), rest)
    requires Execute(Apply(s, step), rest) == end
    ensures IsDisciplinedRun(s, [step] + rest) && IsRun(s, [step] + rest) && Execute(s, [step] + rest) == end
  {
    RunPrepend(s, step, rest, end);
    assert ([step] + rest)[1..] == rest;
  }

  /** A request written and given up because recording it failed; then the rest. */
  function LoseThen(rest: seq<Step>): seq<Step> {
    [Allocate(0)] + ([Register(0)] + ([FailRecord(0)] + ([Leave(0)] + rest)))
  }

  function AfterLoss(): State {
    var s1 := Apply(Start, Allocate(0));
    var s2 := Apply(s1, Register(0));
    var s3 := Apply(s2, FailRecord(0));
    Apply(s3, Leave(0))
  }

  lemma LossRuns(rest: seq<Step>, end: State)
    requires IsDisciplinedRun(AfterLoss(), rest) && IsRun(AfterLoss(), rest) && Execute(AfterLoss(), rest) == end
    ensures IsDisciplinedRun(Start, LoseThen(rest)) && IsRun(Start, LoseThen(rest))
    ensures Execute(Start, LoseThen(rest)) == end
  {
    var s1 := Apply(Start, Allocate(0));
    var s2 := Apply(s1, Register(0));
    var s3 := Apply(s2, FailRecord(0));
    DisciplinedPrepend(s3, Leave(0), rest, end);
    DisciplinedPrepend(s2, FailRecord(0), [Leave(0)] + rest, end);
    DisciplinedPrepend(s1, Register(0), [FailRecord(0)] + ([Leave(0)] + rest), end);
    DisciplinedPrepend(Start, Allocate(0), [Register(0)] + ([FailRecord(0)] + ([Leave(0)] + rest)), end);
  }

  /** The one reply to a lost request: it sets the fatal error. */
  lemma LostReplyIsFatal()
    ensures var steps := LoseThen([]); IsDisciplinedRun(Start, steps) && Lost(Execute(Start, steps), 0)
    ensures var steps := LoseThen([ReadReply(0)] + ([Complain(0, 7)] + []));
            && IsDisciplinedRun(Start, steps) && IsRun(Start, steps)
            && Execute(Start, steps).fatal == Some(7)
  {
    var s := AfterLoss();
    var t := Apply(s, ReadReply(0));
    var end := Apply(t, Complain(0, 7));
    LossRuns([], s);
    DisciplinedPrepend(t, Complain(0, 7), [], end);
    DisciplinedPrepend(s, ReadReply(0), [Complain(0, 7)] + [], end);
    LossRuns([ReadReply(0)] + ([Complain(0, 7)] + []), end);
  }
}
