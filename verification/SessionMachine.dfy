/**
 One session under every interleaving of its goroutines: the pump of each process generation, the holder of the
 foreground gate (a prompt, another operation, or the closer), the close ladder, opening publications, cancels,
 callback goroutines and process deaths. A label is one critical section, or one blocking wait that has ended.

 A wait the code bounds by a timeout may end either way. Where that matters the label says so and the state
 remembers it: `timedOut` is set when a pump is given up on, `stale` when a pump takes a live cycle after its own
 generation was unbound.
 */
module SessionMachine {
  import opened Options
  import opened SessionState

  /** The steps settleTurn and settleAgentCycle share. */
  datatype Stage = Mark | Join | Judging | Committing | Fencing | Dropping | Claiming | Publishing | Clearing

  /** runtimeEnded between its sections. */
  datatype Leg = JoinLeg | IdleLeg | TurnLeg | UnbindLeg

  datatype Pump =
    | Reading
    | Checked                        // the generation was current when the event arrived
    | Opening                        // work with no foreground to give it to
    | Minted(f: Fid)
    | Reserved(f: Fid)
    | Work(f: Fid)                   // an event of this foreground is being handled
    | Settling(f: Fid, stage: Stage)
    | Delivering(f: Fid)             // a settled turn's prompt is being waited for
    | Ending(c: Option<Fid>, t: Option<Fid>, leg: Leg)
    | Releasing
    | Done

  datatype Prompt =
    | Gated
    | Installed(f: Fid)
    | Ready(f: Fid, g: Gen)
    | Waiting(f: Fid, g: Gen)
    | Closure(f: Fid, g: Gen, stage: Stage)   // settleTurn
    | Unslotting(f: Fid)
    | Finishing(f: Fid)
    | Leaving

  datatype Gate = Free | Prompting(prompt: Prompt) | Operating | Closer

  /** ensureRuntime, run at most once by each holder of the gate. */
  datatype Launch =
    | Unasked
    | AwaitPump(g: Gen)
    | Gone                           // no generation is bound
    | AwaitExit(g: Gen)
    | Repairing                      // the retired process has exited
    | Started(g: Gen)
    | Configuring(g: Gen)
    | Streaming(g: Gen)
    | Stopping(g: Gen)
    | Abandoning(g: Gen)             // a close began before the bind
    | Bound(g: Gen)
    | Refused

  datatype Rung = Unclosed | JoinRung | StopRung | GateRung | SampleRung | OwedRung | TakeRung | LastRung | FenceRung | Closed

  datatype Close = Close(
    rung: Rung,
    joins: bool,                     // an establishment owns the gate
    rt: Option<Gen>,
    persisted: bool,
    committed: Option<bool>,
    taken: Option<Fid>)

  datatype State = State(
    s: Shared,
    pumps: map<Gen, Pump>,
    gate: Gate,
    launch: Launch,
    close: Close,
    alive: set<Gen>,
    next: Gen,
    orphan: Option<Gen>,             // started but never bound
    cut: set<Gen>,                   // unbound by runtimeEnded outside a close
    stale: bool,
    timedOut: bool)

  datatype PumpStep =
    | Check
    | Ignore
    | Look(work: bool)               // sample the foreground
    | Mint(f: Fid)
    | Reserve
    | Recheck
    | AcceptTurn
    | Admit(cid: Cid)                // a control request's dialog
    | FinishEvent
    | SettleRun
    | Settle(native: Outcome, ok: bool)
    | Delivered
    | EndEvents
    | JoinEnded
    | FailCycle
    | EndTurn
    | UnbindRuntime
    | Release

  datatype PromptStep =
    | Acquire
    | Install(f: Fid)
    | Obtain
    | Exit
    | Accepted
    | Abort
    | Wake
    | SettleTurn(native: Outcome, ok: bool)
    | Unslot
    | Finish
    | Leave

  datatype LaunchStep =
    | Ensure
    | PumpDone
    | SampleRetired
    | Exited
    | Refuse
    | Start
    | BindRuntime
    | Configured(ok: bool)
    | Published(ok: bool)
    | Stopped(joined: bool)
    | Abandoned

  datatype CloseStep =
    | Begin
    | JoinCallbacks
    | Stop(joined: bool)
    | EnterGate
    | SamplePersisted
    | CommitOwed(ok: bool)
    | TakeCycle
    | IdleCycle
    | FenceStream

  datatype Label =
    | PumpL(g: Gen, pump: PumpStep)
    | PromptL(prompt: PromptStep)
    | LaunchL(launch: LaunchStep)
    | CloseL(close: CloseStep)
    | OpAcquire
    | OpCommit(ok: bool)
    | OpRelease
    | OpenCheck(og: Gen)
    | OpenDone(published: bool)
    | CancelL(cid: Cid)
    | CallbackDone(dcid: Cid)
    | AnnounceL(acid: Cid)
    | ResolveL(rcid: Cid)
    | ProcessExit(dg: Gen)

  /** An established session: its process is running, its establishing request holds the gate. */
  function Init(ephemeral: bool): State {
    State(
      Shared(Some(0), None, {}, None, None, false, false, ephemeral, map[], map[], None, 0, false, None),
      map[0 := Reading], Operating, Refused, Close(Unclosed, false, None, false, None, None), {0}, 1, None, {}, false, false)
  }

  function PumpOf(pumps: map<Gen, Pump>, g: Gen): Pump {
    if g in pumps then pumps[g] else Done
  }

  /******* Settlement, for prompts and agent runs alike *******/

  predicate CanSettle(s: Shared, stage: Stage) {
    && (stage == Join ==> s.callbacks == map[])
    && (stage == Fencing ==> s.opener.None?)
  }

  function Verdict(s: Shared, f: Fid): Outcome {
    if Of(s, f).verdict.Some? then Of(s, f).verdict.value else Failed
  }

  function StageSection(s: Shared, f: Fid, g: Gen, stage: Stage, native: Outcome, ok: bool): Section {
    match stage
    case Mark => Section.Begin(f)
    case Join => NoSection
    case Judging => Section.Judge(f, native)
    case Committing => Section.Commit(f, ok)
    case Fencing => Section.FenceStream
    case Dropping => Section.Drop(g)
    case Claiming => Section.Claim(f)
    case Publishing => Section.Idle(f, Terminal(Verdict(s, f), Settlement))
    case Clearing => Section.Uncycle(f)
  }

  function NextStage(s: Shared, f: Fid, stage: Stage, ok: bool): Stage {
    match stage
    case Mark => Join
    case Join => Judging
    case Judging => if Of(s, f).kind.Prompted? && Of(s, f).ended != Settled then Fencing else Committing
    case Committing => if s.ephemeral || ok then Claiming else Fencing
    case Fencing => Dropping
    case Dropping => Claiming
    case Claiming => Publishing
    case Publishing => Clearing
    case Clearing => Clearing
  }

  /******* The pump of one generation *******/

  predicate PumpEnabled(s: Shared, p: Pump, step: PumpStep) {
    match step
    case Check => p.Reading?
    case Ignore => p.Checked?
    case Look(_) => p.Checked?
    case Mint(f) => p.Opening? && f !in s.fg
    case Reserve => p.Minted?
    case Recheck => p.Reserved?
    case AcceptTurn => p.Work? && Of(s, p.f).kind.Prompted?
    case Admit(cid) => p.Work? && cid !in s.callbacks
    case FinishEvent => p.Work?
    case SettleRun => p.Work?
    case Settle(_, _) => p.Settling? && CanSettle(s, p.stage)
    case Delivered => p.Delivering?
    case EndEvents => p.Reading?
    case JoinEnded => p.Ending? && p.leg == JoinLeg && s.callbacks == map[]
    case FailCycle => p.Ending? && p.leg == IdleLeg
    case EndTurn => p.Ending? && p.leg == TurnLeg
    case UnbindRuntime => p.Ending? && p.leg == UnbindLeg && s.opener.None?
    case Release => p.Releasing?
  }

  function PumpNext(s: Shared, p: Pump, g: Gen, step: PumpStep): Pump
    requires PumpEnabled(s, p, step)
  {
    match step
    case Check => if s.runtime == Some(g) then Checked else Reading
    case Ignore => Reading
    case Look(work) =>
      if Slot(s).Some? then Work(Slot(s).value) else if work && !s.closing then Opening else Reading
    case Mint(f) => Minted(f)
    case Reserve => if CanReserve(s, g) then Reserved(p.f) else Reading
    case Recheck => if s.runtime == Some(g) && s.cycle == Some(p.f) && !s.closing then Work(p.f) else Reading
    case AcceptTurn => p
    case Admit(_) => p
    case FinishEvent => Reading
    case SettleRun => if Of(s, p.f).kind.Prompted? then Delivering(p.f) else Settling(p.f, Mark)
    case Settle(_, ok) => if p.stage == Clearing then Reading else Settling(p.f, NextStage(s, p.f, p.stage, ok))
    case Delivered => Reading
    case EndEvents =>
      if s.runtime == Some(g) then Ending(if s.closing then None else s.cycle, s.turn, JoinLeg) else Releasing
    case JoinEnded => p.(leg := IdleLeg)
    case FailCycle => p.(leg := TurnLeg)
    case EndTurn => p.(leg := UnbindLeg)
    case UnbindRuntime => Releasing
    case Release => Done
  }

  function PumpSection(s: Shared, p: Pump, g: Gen, step: PumpStep): Section
    requires PumpEnabled(s, p, step)
  {
    match step
    case Mint(f) => Section.Mint(f, g)
    case Reserve => Section.Reserve(p.f, g)
    case AcceptTurn => Section.Accept(p.f)
    case Admit(cid) => Section.Register(p.f, cid)
    case SettleRun => if Of(s, p.f).kind.Prompted? then Section.End(p.f, Settled) else NoSection
    case Settle(native, ok) => StageSection(s, p.f, g, p.stage, native, ok)
    case EndEvents => Section.StartEnding(g)
    case FailCycle => if p.c.Some? then Section.Idle(p.c.value, Terminal(Failed, Death)) else NoSection
    case EndTurn => if p.t.Some? then Section.End(p.t.value, TransportEnded) else NoSection
    case UnbindRuntime => Section.Unbound(g)
    case _ => NoSection
  }

  /** The pump takes a live cycle for its own after its generation was unbound. */
  predicate TakesStale(s: Shared, g: Gen, step: PumpStep) {
    step.Look? && s.turn.None? && s.cycle.Some? && Live(s, s.cycle.value) && s.runtime != Some(g)
  }

  /******* The prompt that holds the gate *******/

  /** ensureRuntime is not in progress. */
  predicate AtRest(l: Launch) {
    l.Unasked? || l.Bound? || l.Refused?
  }

  predicate PromptEnabled(s: Shared, gate: Gate, launch: Launch, step: PromptStep) {
    if step.Acquire? then gate.Free? && !s.closing
    else
      && gate.Prompting?
      && var p := gate.prompt;
         match step
         case Acquire => false
         case Install(f) => p.Gated? && f !in s.fg
         case Obtain => p.Installed? && launch.Bound?
         case Exit => (p.Installed? && AtRest(launch)) || (p.Ready? && !Of(s, p.f).accepted)
         case Accepted => p.Ready?
         case Abort => p.Waiting? && Of(s, p.f).cancelled
         case Wake => p.Waiting? && Of(s, p.f).ended != Running
         case SettleTurn(_, _) => p.Closure? && p.stage != Clearing && CanSettle(s, p.stage)
         case Unslot => p.Unslotting?
         case Finish => p.Finishing?
         case Leave => p.Leaving?
  }

  function PromptNext(s: Shared, gate: Gate, launch: Launch, step: PromptStep): Gate
    requires PromptEnabled(s, gate, launch, step)
  {
    match step
    case Acquire => Prompting(Gated)
    case Install(f) => Prompting(if s.cycle.Some? then Leaving else Installed(f))
    case Obtain => Prompting(Ready(gate.prompt.f, launch.g))
    case Exit => Prompting(Unslotting(gate.prompt.f))
    case Accepted => Prompting(Waiting(gate.prompt.f, gate.prompt.g))
    case Abort => gate
    case Wake => Prompting(Closure(gate.prompt.f, gate.prompt.g, Mark))
    case SettleTurn(_, ok) =>
      var p := gate.prompt;
      Prompting(if p.stage == Publishing then Unslotting(p.f) else Closure(p.f, p.g, NextStage(s, p.f, p.stage, ok)))
    case Unslot => Prompting(Finishing(gate.prompt.f))
    case Finish => Prompting(Leaving)
    case Leave => Free
  }

  function PromptSection(s: Shared, gate: Gate, launch: Launch, step: PromptStep): Section
    requires PromptEnabled(s, gate, launch, step)
  {
    match step
    case Install(f) => Section.Install(f)
    case Accepted => Section.Accept(gate.prompt.f)
    case Abort => Section.End(gate.prompt.f, TransportEnded)
    case SettleTurn(native, ok) =>
      StageSection(s, gate.prompt.f, gate.prompt.g, gate.prompt.stage, native, ok)
    case Unslot => Section.Unslot(gate.prompt.f)
    case _ => NoSection
  }

  /******* ensureRuntime *******/

  predicate MayLaunch(gate: Gate) {
    gate.Operating? || (gate.Prompting? && gate.prompt.Installed?)
  }

  predicate LaunchEnabled(st: State, step: LaunchStep) {
    && MayLaunch(st.gate)
    && match step
       case Ensure => st.launch.Unasked?
       case PumpDone => st.launch.AwaitPump? && PumpOf(st.pumps, st.launch.g) == Done
       case SampleRetired => st.launch.Gone?
       case Exited => st.launch.AwaitExit? && st.launch.g !in st.alive
       case Refuse => st.launch.AwaitExit? || st.launch.AwaitPump? || st.launch.Gone? || st.launch.Repairing?
       case Start => st.launch.Repairing?
       case BindRuntime => st.launch.Started?
       case Configured(_) => st.launch.Configuring?
       case Published(_) => st.launch.Streaming?
       case Stopped(joined) => st.launch.Stopping? && (joined ==> PumpOf(st.pumps, st.launch.g) == Done)
       case Abandoned => st.launch.Abandoning?
  }

  function LaunchNext(st: State, step: LaunchStep): Launch
    requires LaunchEnabled(st, step)
  {
    match step
    case Ensure =>
      if st.s.runtime.None? then Gone
      else if st.s.runtime.value in st.s.ending then AwaitPump(st.s.runtime.value)
      else Launch.Bound(st.s.runtime.value)
    case PumpDone => Gone
    case SampleRetired => if st.s.retired.Some? then AwaitExit(st.s.retired.value) else Repairing
    case Exited => Repairing
    case Refuse => Refused
    case Start => Started(st.next)
    case BindRuntime => if st.s.closing then Abandoning(st.launch.g) else Configuring(st.launch.g)
    case Configured(ok) => if ok then Streaming(st.launch.g) else Stopping(st.launch.g)
    case Published(ok) => if ok then Launch.Bound(st.launch.g) else Refused
    case Stopped(_) => Refused
    case Abandoned => Refused
  }

  function LaunchSection(st: State, step: LaunchStep): Section
    requires LaunchEnabled(st, step)
  {
    match step
    case Exited => Section.Forget(st.launch.g)
    case BindRuntime => Section.Bound(st.launch.g)
    case Stopped(_) => Section.Drop(st.launch.g)
    case _ => NoSection
  }

  /******* The close ladder *******/

  predicate CloseEnabled(st: State, step: CloseStep) {
    var c := st.close;
    match step
    case Begin => c.rung == Unclosed && !st.s.closing
    case JoinCallbacks => c.rung == JoinRung && st.s.callbacks == map[]
    case Stop(joined) =>
      c.rung == StopRung && (joined && c.rt.Some? ==> PumpOf(st.pumps, c.rt.value) == Done)
    case EnterGate => c.rung == GateRung && (c.joins ==> st.gate.Free?)
    case SamplePersisted => c.rung == SampleRung
    case CommitOwed(_) => c.rung == OwedRung
    case TakeCycle => c.rung == TakeRung
    case IdleCycle => c.rung == LastRung
    case FenceStream => c.rung == FenceRung && st.s.opener.None?
  }

  function CloseNext(s: Shared, c: Close, step: CloseStep): Close {
    match step
    case Begin => Close(JoinRung, !s.persisted, s.runtime, false, None, None)
    case JoinCallbacks => c.(rung := StopRung)
    case Stop(_) => c.(rung := GateRung)
    case EnterGate => c.(rung := SampleRung)
    case SamplePersisted => c.(rung := if s.persisted then OwedRung else TakeRung, persisted := s.persisted)
    case CommitOwed(ok) => c.(rung := TakeRung, committed := Some(s.ephemeral || ok))
    case TakeCycle => c.(rung := LastRung, taken := s.cycle)
    case IdleCycle => c.(rung := FenceRung)
    case FenceStream => c.(rung := Closed)
  }

  function CloseSection(c: Close, step: CloseStep): Section {
    match step
    case Begin => Section.StartClose
    case Stop(_) => if c.rt.Some? then Section.Drop(c.rt.value) else NoSection
    case CommitOwed(ok) => Section.CommitAll(ok)
    case TakeCycle => Section.TakeCycle
    case IdleCycle =>
      if c.taken.Some? && c.committed != Some(false)
      then Section.Idle(c.taken.value, Terminal(Cancelled, Closing)) else NoSection
    case FenceStream => Section.FenceStream
    case _ => NoSection
  }

  /******* One step *******/

  predicate Enabled(st: State, l: Label) {
    match l
    case PumpL(g, step) => g in st.pumps && PumpEnabled(st.s, st.pumps[g], step)
    case PromptL(step) => PromptEnabled(st.s, st.gate, st.launch, step)
    case LaunchL(step) => LaunchEnabled(st, step)
    case CloseL(step) => CloseEnabled(st, step)
    case OpAcquire => st.gate.Free? && !st.s.closing
    case OpCommit(_) => st.gate.Operating? && AtRest(st.launch)
    case OpRelease => st.gate.Operating? && AtRest(st.launch)
    case OpenCheck(g) => st.s.opener.None? && MayOpen(st.s, g) && g in st.alive
    case OpenDone(_) => st.s.opener.Some?
    case CancelL(cid) => cid !in st.s.callbacks
    case CallbackDone(cid) => cid in st.s.callbacks && (st.s.callbacks[cid].Dialog? ==> !st.s.callbacks[cid].pending)
    case AnnounceL(cid) => IsDialog(st.s, cid)
    case ResolveL(cid) => IsDialog(st.s, cid)
    case ProcessExit(g) => g in st.alive
  }

  function SectionOf(st: State, l: Label): Section
    requires Enabled(st, l)
  {
    match l
    case PumpL(g, step) => PumpSection(st.s, st.pumps[g], g, step)
    case PromptL(step) => PromptSection(st.s, st.gate, st.launch, step)
    case LaunchL(step) => LaunchSection(st, step)
    case CloseL(step) => CloseSection(st.close, step)
    case OpCommit(ok) => Section.CommitAll(ok)
    case OpenCheck(g) => Section.StartOpen(g)
    case OpenDone(ok) => Section.FinishOpen(ok)
    case CancelL(cid) => Section.CancelSlot(cid)
    case CallbackDone(cid) => Section.Finish(cid)
    case AnnounceL(cid) => Section.Announce(cid)
    case ResolveL(cid) => Section.Resolve(cid)
    case _ => NoSection
  }

  function NextPumps(st: State, l: Label): map<Gen, Pump>
    requires Enabled(st, l)
  {
    match l
    case PumpL(g, step) => st.pumps[g := PumpNext(st.s, st.pumps[g], g, step)]
    case LaunchL(BindRuntime) => st.pumps[st.launch.g := if st.s.closing then Done else Reading]
    case _ => st.pumps
  }

  function NextGate(st: State, l: Label): Gate
    requires Enabled(st, l)
  {
    match l
    case PromptL(step) => PromptNext(st.s, st.gate, st.launch, step)
    case OpAcquire => Operating
    case OpRelease => Free
    case CloseL(EnterGate) => if st.close.joins then Closer else st.gate
    case CloseL(FenceStream) => if st.close.joins then Free else st.gate
    case _ => st.gate
  }

  function NextLaunch(st: State, l: Label): Launch
    requires Enabled(st, l)
  {
    match l
    case LaunchL(step) => LaunchNext(st, step)
    case PromptL(Acquire) => Unasked
    case OpAcquire => Unasked
    case _ => st.launch
  }

  function NextAlive(st: State, l: Label): set<Gen>
    requires Enabled(st, l)
  {
    match l
    case LaunchL(Start) => st.alive + {st.next}
    case ProcessExit(g) => st.alive - {g}
    case _ => st.alive
  }

  function NextCut(st: State, l: Label): set<Gen> {
    match l
    case PumpL(g, UnbindRuntime) => if st.s.runtime == Some(g) && !st.s.closing then st.cut + {g} else st.cut
    case _ => st.cut
  }

  /** A stop lets go of a pump that has not finished. */
  predicate GivesUp(st: State, l: Label) {
    match l
    case LaunchL(Stopped(_)) => st.launch.Stopping? && !PumpOf(st.pumps, st.launch.g).Done?
    case CloseL(Stop(_)) => st.close.rt.Some? && !PumpOf(st.pumps, st.close.rt.value).Done?
    case _ => false
  }

  function Next(st: State, l: Label): State
    requires Enabled(st, l)
  {
    State(
      Apply(st.s, SectionOf(st, l)),
      NextPumps(st, l),
      NextGate(st, l),
      NextLaunch(st, l),
      if l.CloseL? then CloseNext(st.s, st.close, l.close) else st.close,
      NextAlive(st, l),
      if l.LaunchL? && l.launch.Start? then st.next + 1 else st.next,
      if l.LaunchL? && l.launch.Abandoned? then Some(st.launch.g) else st.orphan,
      NextCut(st, l),
      st.stale || (l.PumpL? && TakesStale(st.s, l.g, l.pump)),
      st.timedOut || GivesUp(st, l))
  }

  ghost predicate Legal(st: State, ls: seq<Label>)
    decreases |ls|
  {
    ls == [] || (Enabled(st, ls[0]) && Legal(Next(st, ls[0]), ls[1..]))
  }

  ghost function Run(st: State, ls: seq<Label>): State
    requires Legal(st, ls)
    decreases |ls|
  {
    if ls == [] then st else Run(Next(st, ls[0]), ls[1..])
  }
}
