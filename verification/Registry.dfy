/**
 The agent's session registry (agent_session.go, agent.go) under every interleaving of its requests. A label is one
 critical section of the agent's lock, or the gauge update that follows one.
 */
module Registry {

  type SessionId = nat
  /** One session object; a restored session is a new object under an old id. */
  type Object = nat
  type Request = nat

  /** What a request does once it has detached a session. */
  datatype After =
    | Leave
    | Restart(id: SessionId)                 // a restore goes on to reserve its slot
    | ReturnDeleted(id: SessionId)
    | ShutRest(rest: map<SessionId, Object>)

  datatype Stage =
    | Reserving(id: SessionId)
    | Building(id: SessionId, s: Object)     // slot held, session not installed
    | Refused                                // slot held, to be released
    | Installed(id: SessionId, s: Object)    // in the map, not on the gauge, slot held
    | Counted(id: SessionId, s: Object)      // slot still held
    | Committing(id: SessionId, s: Object)   // slot handed over
    | Restoring(id: SessionId)
    | Resolving(id: SessionId)
    | Deleting(id: SessionId)
    | Detaching(id: SessionId, s: Object, after: After)
    | Uncounting(after: After)               // off the map, still on the gauge
    | Deleted(id: SessionId)                 // a delete that has returned
    | Closing
    | Shutting(rest: map<SessionId, Object>)
    | ShutDown                               // the agent's close has returned
    | Ended

  datatype Agent = Agent(
    max: nat,
    closed: bool,
    sessions: map<SessionId, Object>,
    ephemeral: set<SessionId>,
    deleted: set<SessionId>,
    starting: int,
    gauge: int,
    requests: map<Request, Stage>,
    nextObject: Object)

  datatype Step =
    | Reserve
    | FailStart
    | Install(ephemeralSession: bool)
    | Raise
    | Release
    | CommitFails
    | Finish
    | Look(reuse: bool)
    | Resolve(close: bool)
    | Mark
    | Detach
    | Lower
    | Shut
    | ShutNext(id: SessionId)

  datatype Label = Arrive(r: Request, stage: Stage) | Take(r: Request, step: Step)

  function Init(max: nat): Agent {
    Agent(max, false, map[], {}, {}, 0, 0, map[], 0)
  }

  /** Requests begin at one of these. */
  predicate Begins(stage: Stage) {
    stage.Reserving? || stage.Restoring? || stage.Resolving? || stage.Deleting? || stage.Closing?
  }

  predicate CanTake(a: Agent, stage: Stage, step: Step) {
    match step
    case Reserve => stage.Reserving?
    case FailStart => stage.Building?
    case Install(_) => stage.Building?
    case Raise => stage.Installed?
    case Release => stage.Counted? || stage.Refused?
    case CommitFails => stage.Committing?
    case Finish => stage.Committing?
    case Look(_) => stage.Restoring?
    case Resolve(_) => stage.Resolving?
    case Mark => stage.Deleting?
    case Detach => stage.Detaching?
    case Lower => stage.Uncounting?
    case Shut => stage.Closing?
    case ShutNext(id) => stage.Shutting? && (stage.rest == map[] || id in stage.rest)
  }

  predicate Enabled(a: Agent, l: Label) {
    match l
    case Arrive(r, stage) => r !in a.requests && Begins(stage)
    case Take(r, step) => r in a.requests && CanTake(a, a.requests[r], step)
  }

  predicate SlotFree(a: Agent) {
    !a.closed && |a.sessions| + a.starting < a.max
  }

  predicate Installable(a: Agent, id: SessionId) {
    !a.closed && id !in a.deleted && id !in a.sessions
  }

  /** A deleted id resolves to nothing, whatever the map holds. */
  predicate Resolves(a: Agent, id: SessionId) {
    !a.closed && id in a.sessions && id !in a.deleted
  }

  predicate Current(a: Agent, id: SessionId, s: Object) {
    id in a.sessions && a.sessions[id] == s
  }

  function Continue(after: After): Stage {
    match after
    case Leave => Ended
    case Restart(id) => Reserving(id)
    case ReturnDeleted(id) => Deleted(id)
    case ShutRest(rest) => Shutting(rest)
  }

  /** Where the request goes. */
  function NextStage(a: Agent, stage: Stage, step: Step): Stage
    requires CanTake(a, stage, step)
  {
    match step
    case Reserve => if SlotFree(a) then Building(stage.id, a.nextObject) else Ended
    case FailStart => Refused
    case Install(_) => if Installable(a, stage.id) then Installed(stage.id, stage.s) else Refused
    case Raise => Counted(stage.id, stage.s)
    case Release => if stage.Counted? then Committing(stage.id, stage.s) else Ended
    case CommitFails => Detaching(stage.id, stage.s, Leave)
    case Finish => Ended
    case Look(reuse) =>
      if stage.id in a.deleted then Ended
      else if stage.id !in a.sessions then Reserving(stage.id)
      else if reuse then Ended
      else Detaching(stage.id, a.sessions[stage.id], Restart(stage.id))
    case Resolve(close) =>
      if Resolves(a, stage.id) && close then Detaching(stage.id, a.sessions[stage.id], Leave) else Ended
    case Mark =>
      if stage.id in a.sessions then Detaching(stage.id, a.sessions[stage.id], ReturnDeleted(stage.id)) else Deleted(stage.id)
    case Detach => if Current(a, stage.id, stage.s) then Uncounting(stage.after) else Continue(stage.after)
    case Lower => Continue(stage.after)
    case Shut => if a.closed then Ended else Shutting(a.sessions)
    case ShutNext(id) =>
      if stage.rest == map[] then ShutDown else Detaching(id, stage.rest[id], ShutRest(stage.rest - {id}))
  }

  function NextAgent(a: Agent, stage: Stage, step: Step): Agent
    requires CanTake(a, stage, step)
  {
    match step
    case Reserve => if SlotFree(a) then a.(starting := a.starting + 1, nextObject := a.nextObject + 1) else a
    case Install(ephemeralSession) =>
      if !Installable(a, stage.id) then a
      else a.(sessions := a.sessions[stage.id := stage.s],
              ephemeral := if ephemeralSession then a.ephemeral + {stage.id} else a.ephemeral)
    case Raise => a.(gauge := a.gauge + 1)
    case Release => a.(starting := a.starting - 1)
    case Mark => a.(deleted := a.deleted + {stage.id}, ephemeral := a.ephemeral - {stage.id})
    case Detach => if Current(a, stage.id, stage.s) then a.(sessions := a.sessions - {stage.id}) else a
    case Lower => a.(gauge := a.gauge - 1)
    case Shut => a.(closed := true)
    case _ => a
  }

  function Next(a: Agent, l: Label): Agent
    requires Enabled(a, l)
  {
    match l
    case Arrive(r, stage) => a.(requests := a.requests[r := stage])
    case Take(r, step) =>
      NextAgent(a, a.requests[r], step).(requests := a.requests[r := NextStage(a, a.requests[r], step)])
  }

  ghost predicate Legal(a: Agent, ls: seq<Label>)
    decreases |ls|
  {
    ls == [] || (Enabled(a, ls[0]) && Legal(Next(a, ls[0]), ls[1..]))
  }

  ghost function Run(a: Agent, ls: seq<Label>): Agent
    requires Legal(a, ls)
    decreases |ls|
  {
    if ls == [] then a else Run(Next(a, ls[0]), ls[1..])
  }

  /******* Counting requests *******/

  predicate HoldsSlot(stage: Stage) {
    stage.Building? || stage.Refused? || stage.Installed? || stage.Counted?
  }

  /** A reservation not handed over to an installed session. */
  predicate Reserves(stage: Stage) {
    stage.Building? || stage.Refused?
  }

  function Holders(requests: map<Request, Stage>): set<Request> {
    set r | r in requests && HoldsSlot(requests[r])
  }

  function Reservations(requests: map<Request, Stage>): set<Request> {
    set r | r in requests && Reserves(requests[r])
  }

  function Raising(requests: map<Request, Stage>): set<Request> {
    set r | r in requests && requests[r].Installed?
  }

  function Lowering(requests: map<Request, Stage>): set<Request> {
    set r | r in requests && requests[r].Uncounting?
  }

  function One(b: bool): int { if b then 1 else 0 }

  /** How a set indexed by requests changes size when one request moves. */
  lemma MoveSize(s: set<Request>, s': set<Request>, r: Request, holds: bool)
    requires s' == if holds then s + {r} else s - {r}
    ensures |s'| == |s| + One(holds) - One(r in s)
  {
  }

  function Before(requests: map<Request, Stage>, r: Request): Stage {
    if r in requests then requests[r] else Ended
  }

  lemma HoldersMove(requests: map<Request, Stage>, r: Request, stage: Stage)
    ensures |Holders(requests[r := stage])| == |Holders(requests)| + One(HoldsSlot(stage)) - One(HoldsSlot(Before(requests, r)))
  {
    MoveSize(Holders(requests), Holders(requests[r := stage]), r, HoldsSlot(stage));
  }

  lemma ReservationsMove(requests: map<Request, Stage>, r: Request, stage: Stage)
    ensures |Reservations(requests[r := stage])| == |Reservations(requests)| + One(Reserves(stage)) - One(Reserves(Before(requests, r)))
  {
    MoveSize(Reservations(requests), Reservations(requests[r := stage]), r, Reserves(stage));
  }

  lemma RaisingMove(requests: map<Request, Stage>, r: Request, stage: Stage)
    ensures |Raising(requests[r := stage])| == |Raising(requests)| + One(stage.Installed?) - One(Before(requests, r).Installed?)
  {
    MoveSize(Raising(requests), Raising(requests[r := stage]), r, stage.Installed?);
  }

  lemma LoweringMove(requests: map<Request, Stage>, r: Request, stage: Stage)
    ensures |Lowering(requests[r := stage])| == |Lowering(requests)| + One(stage.Uncounting?) - One(Before(requests, r).Uncounting?)
  {
    MoveSize(Lowering(requests), Lowering(requests[r := stage]), r, stage.Uncounting?);
  }

  /******* The invariant *******/

  ghost predicate Counts(a: Agent) {
    && a.starting == |Holders(a.requests)|
    && |a.sessions| + |Reservations(a.requests)| <= a.max
    && a.gauge + |Raising(a.requests)| - |Lowering(a.requests)| == |a.sessions|
  }

  /** A restore, a close, a delete or a shutdown under way knows what the map can still hold. */
  predicate AfterSound(a: Agent, after: After) {
    match after
    case ReturnDeleted(id) => id in a.deleted && id !in a.sessions
    case ShutRest(rest) => a.closed && Within(a.sessions, rest)
    case _ => true
  }

  /** The map holds nothing but what is left to shut. */
  predicate Within(sessions: map<SessionId, Object>, rest: map<SessionId, Object>) {
    forall id :: id in sessions ==> id in rest && rest[id] == sessions[id]
  }

  predicate StageSound(a: Agent, stage: Stage) {
    match stage
    case Detaching(id, s, ReturnDeleted(d)) => d == id && id in a.deleted && (id in a.sessions ==> a.sessions[id] == s)
    case Detaching(id, s, ShutRest(rest)) => a.closed && Within(a.sessions, rest[id := s])
    case Detaching(_, _, _) => true
    case Uncounting(after) => AfterSound(a, after)
    case Deleted(id) => id in a.deleted && id !in a.sessions
    case Shutting(rest) => a.closed && Within(a.sessions, rest)
    case ShutDown => a.closed && a.sessions == map[]
    case _ => true
  }

  ghost predicate StagesSound(a: Agent) {
    forall r :: r in a.requests ==> StageSound(a, a.requests[r])
  }

  ghost predicate Inv(a: Agent) {
    Counts(a) && StagesSound(a)
  }

  lemma InitInv(max: nat)
    ensures Inv(Init(max))
  {
  }

  /** Reservations are among the held slots, so a free slot covers them all. */
  lemma ReservationsHeld(requests: map<Request, Stage>)
    ensures |Reservations(requests)| <= |Holders(requests)|
  {
    SubsetSize(Reservations(requests), Holders(requests));
  }

  lemma {:induction false} SubsetSize(a: set<Request>, b: set<Request>)
    requires a <= b
    ensures |a| <= |b|
    decreases a
  {
    if a != {} {
      var x :| x in a;
      SubsetSize(a - {x}, b - {x});
    }
  }

  lemma SessionsMove(a: Agent, stage: Stage, step: Step)
    requires CanTake(a, stage, step)
    ensures |NextAgent(a, stage, step).sessions| == |a.sessions| + One(step.Install? && Installable(a, stage.id))
                                                 - One(step.Detach? && Current(a, stage.id, stage.s))
  {
  }

  lemma TakeCounts(a: Agent, r: Request, step: Step)
    requires Counts(a) && Enabled(a, Take(r, step))
    ensures Counts(Next(a, Take(r, step)))
  {
    var stage := NextStage(a, a.requests[r], step);
    HoldersMove(a.requests, r, stage);
    ReservationsMove(a.requests, r, stage);
    RaisingMove(a.requests, r, stage);
    LoweringMove(a.requests, r, stage);
    SessionsMove(a, a.requests[r], step);
    ReservationsHeld(a.requests);
  }

  lemma ArriveCounts(a: Agent, r: Request, stage: Stage)
    requires Counts(a) && Enabled(a, Arrive(r, stage))
    ensures Counts(Next(a, Arrive(r, stage)))
  {
    HoldersMove(a.requests, r, stage);
    ReservationsMove(a.requests, r, stage);
    RaisingMove(a.requests, r, stage);
    LoweringMove(a.requests, r, stage);
  }

  /** What one request does leaves every other request's knowledge true. */
  lemma OthersStaySound(a: Agent, stage: Stage, step: Step, other: Stage)
    requires CanTake(a, stage, step) && StageSound(a, other)
    ensures StageSound(NextAgent(a, stage, step), other)
  {
  }

  lemma OwnStaysSound(a: Agent, stage: Stage, step: Step)
    requires CanTake(a, stage, step) && StageSound(a, stage)
    ensures StageSound(NextAgent(a, stage, step), NextStage(a, stage, step))
  {
  }

  lemma StepKeeps(a: Agent, l: Label)
    requires Inv(a) && Enabled(a, l)
    ensures Inv(Next(a, l))
  {
    match l {
      case Arrive(r, stage) =>
        ArriveCounts(a, r, stage);
        forall q | q in Next(a, l).requests ensures StageSound(Next(a, l), Next(a, l).requests[q]) {
          if q != r { assert StageSound(a, a.requests[q]); }
        }
      case Take(r, step) =>
        TakeCounts(a, r, step);
        var b := NextAgent(a, a.requests[r], step);
        assert StageSound(a, a.requests[r]);
        OwnStaysSound(a, a.requests[r], step);
        forall q | q in Next(a, l).requests ensures StageSound(Next(a, l), Next(a, l).requests[q]) {
          if q != r {
            assert StageSound(a, a.requests[q]);
            OthersStaySound(a, a.requests[r], step, a.requests[q]);
          }
        }
    }
  }

  lemma {:induction false} RunKeeps(a: Agent, ls: seq<Label>)
    requires Inv(a) && Legal(a, ls)
    ensures Inv(Run(a, ls))
    decreases |ls|
  {
    if ls != [] {
      StepKeeps(a, ls[0]);
      RunKeeps(Next(a, ls[0]), ls[1..]);
    }
  }

  /******* What every run of the registry promises *******/

  lemma {:induction false} MaxStays(a: Agent, ls: seq<Label>)
    requires Legal(a, ls)
    ensures Run(a, ls).max == a.max && a.deleted <= Run(a, ls).deleted
    decreases |ls|
  {
    if ls != [] { MaxStays(Next(a, ls[0]), ls[1..]); }
  }

  /** Installed sessions and reservations not yet installed never exceed the limit, in any interleaving, and every
      reservation is held by exactly one request until it is released. */
  lemma NeverOverLimit(max: nat, ls: seq<Label>)
    requires Legal(Init(max), ls)
    ensures var a := Run(Init(max), ls);
            && |a.sessions| + |Reservations(a.requests)| <= max
            && a.starting == |Holders(a.requests)|
  {
    InitInv(max);
    RunKeeps(Init(max), ls);
    MaxStays(Init(max), ls);
  }

  /** With no gauge update pending the gauge is the number of installed sessions. */
  lemma GaugeCountsSessions(max: nat, ls: seq<Label>)
    requires Legal(Init(max), ls)
    ensures var a := Run(Init(max), ls);
            && a.gauge == |a.sessions| + |Lowering(a.requests)| - |Raising(a.requests)|
            && (Lowering(a.requests) == {} && Raising(a.requests) == {} ==> a.gauge == |a.sessions|)
  {
    InitInv(max);
    RunKeeps(Init(max), ls);
  }

  /** Once delete has marked an id it never resolves and is never installed again. */
  lemma DeletedNeverResolves(max: nat, ls: seq<Label>, id: SessionId, more: seq<Label>)
    requires Legal(Init(max), ls) && id in Run(Init(max), ls).deleted && Legal(Run(Init(max), ls), more)
    ensures var a := Run(Run(Init(max), ls), more); !Resolves(a, id) && !Installable(a, id)
  {
    MaxStays(Run(Init(max), ls), more);
  }

  /** After a delete has returned nothing is ever in the map under its id, whether a racing restore installed before
      the mark or came after it. */
  lemma NothingUnderDeleted(max: nat, ls: seq<Label>, r: Request)
    requires Legal(Init(max), ls)
    requires r in Run(Init(max), ls).requests && Run(Init(max), ls).requests[r].Deleted?
    ensures Run(Init(max), ls).requests[r].id !in Run(Init(max), ls).sessions
  {
    InitInv(max);
    RunKeeps(Init(max), ls);
    assert StageSound(Run(Init(max), ls), Run(Init(max), ls).requests[r]);
  }

  /** After the agent's close has run its ladder to the end no session is installed, then or later. */
  lemma NothingAfterShutdown(max: nat, ls: seq<Label>, r: Request)
    requires Legal(Init(max), ls)
    requires r in Run(Init(max), ls).requests && Run(Init(max), ls).requests[r].ShutDown?
    ensures Run(Init(max), ls).sessions == map[]
  {
    InitInv(max);
    RunKeeps(Init(max), ls);
    assert StageSound(Run(Init(max), ls), Run(Init(max), ls).requests[r]);
  }
}
