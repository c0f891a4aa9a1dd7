/**
 One process at a time, a fence no opening outlives, and callbacks that end with the run they belong to. These facts
 hold in every reachable state, whatever waits time out.
 */
module SessionProcesses {
  import opened Options
  import opened SessionState
  import opened SessionMachine
  import opened SessionFacts
  import opened SessionSettlement

  /******* Callbacks *******/

  /** The turn in the slot is past the join of its settlement. */
  predicate TurnJoined(s: Shared, gate: Gate) {
    match gate
    case Prompting(Closure(_, _, stage)) => stage != Mark && stage != Join
    case Prompting(Unslotting(f)) => Of(s, f).settling
    case _ => false
  }

  /** Once a turn's settlement has joined the callbacks none runs while it holds the slot; nor once close has. */
  predicate CallbacksJoined(s: Shared, gate: Gate, c: Close) {
    && (TurnJoined(s, gate) ==> s.callbacks == map[])
    && (c.rung != Unclosed && c.rung != JoinRung ==> s.callbacks == map[])
  }

  /** No goroutine is admitted while a close or the settlement of the turn is under way. */
  lemma NothingAdmitted(s: Shared, x: Section)
    requires s.closing || (s.turn.Some? && Of(s, s.turn.value).settling)
    requires s.callbacks == map[]
    ensures Callbacks(s, x) == map[]
  {
  }

  lemma JoinedFrom(st: State, l: Label)
    requires Base(st) && PromptSound(st.s, st.gate) && Enabled(st, l)
    requires TurnJoined(Apply(st.s, SectionOf(st, l)), NextGate(st, l))
    ensures TurnJoined(st.s, st.gate) || (SectionOf(st, l).NoSection? && st.s.callbacks == map[])
  {
    if !l.PromptL? && st.s.turn.Some? { TurnSpared(st, l); }
  }

  lemma CallbacksStayJoined(st: State, l: Label)
    requires Base(st) && PromptSound(st.s, st.gate) && Enabled(st, l)
    requires CallbacksJoined(st.s, st.gate, st.close)
    ensures CallbacksJoined(Apply(st.s, SectionOf(st, l)), NextGate(st, l),
                            if l.CloseL? then CloseNext(st.s, st.close, l.close) else st.close)
  {
    if st.s.callbacks == map[] && (st.s.closing || (st.s.turn.Some? && Of(st.s, st.s.turn.value).settling)) {
      NothingAdmitted(st.s, SectionOf(st, l));
    }
    if TurnJoined(Apply(st.s, SectionOf(st, l)), NextGate(st, l)) { JoinedFrom(st, l); }
  }

  /******* Processes *******/

  /** The generations a live process may belong to: none while the transcript is being repaired, one otherwise. */
  function Owners(s: Shared, launch: Launch, orphan: Option<Gen>): set<Gen> {
    if orphan.Some? then {orphan.value}
    else if launch.Repairing? then {}
    else if launch.Started? || launch.Abandoning? then {launch.g}
    else if s.runtime.Some? then {s.runtime.value}
    else if s.retired.Some? then {s.retired.value}
    else {}
  }

  predicate LaunchSound(s: Shared, launch: Launch, pumps: map<Gen, Pump>, next: Gen) {
    match launch
    case AwaitPump(g) => s.runtime.Some? ==> s.runtime == Some(g)
    case Gone => s.runtime.None?
    case AwaitExit(g) => s.runtime.None? && s.retired == Some(g)
    case Repairing => s.runtime.None?
    case Started(g) => s.runtime.None? && g < next && g !in pumps
    case Abandoning(g) => s.runtime.None? && s.closing && g < next
    case _ => true
  }

  ghost predicate PumpsBehind(pumps: map<Gen, Pump>, next: Gen) {
    forall g :: g in pumps ==> g < next
  }

  /** The bound generation has a pump that has not let go of it. */
  predicate RuntimePumped(runtime: Option<Gen>, pumps: map<Gen, Pump>) {
    runtime.Some? ==> runtime.value in pumps && !pumps[runtime.value].Releasing? && !pumps[runtime.value].Done?
  }

  ghost predicate Processes(st: State) {
    && (AtRest(st.launch) || MayLaunch(st.gate))
    && LaunchSound(st.s, st.launch, st.pumps, st.next)
    && PumpsBehind(st.pumps, st.next)
    && RuntimePumped(st.s.runtime, st.pumps)
    && (st.orphan.Some? ==> st.s.closing && st.launch.Refused? && st.s.runtime.None?)
    && st.alive <= Owners(st.s, st.launch, st.orphan)
  }

  lemma RuntimeStaysPumped(st: State, l: Label)
    requires Base(st) && Processes(st) && Enabled(st, l)
    ensures RuntimePumped(Runtime(st.s, SectionOf(st, l)), NextPumps(st, l))
    ensures PumpsBehind(NextPumps(st, l), st.next)
  {
    match l {
      case PumpL(g, step) => PumpStaysPumped(st, g, step);
      case LaunchL(step) =>
      case _ => assert RuntimePumped(Runtime(st.s, SectionOf(st, l)), st.pumps);
    }
  }

  lemma PumpStaysPumped(st: State, g: Gen, step: PumpStep)
    requires Processes(st) && Enabled(st, PumpL(g, step))
    ensures RuntimePumped(Runtime(st.s, PumpSection(st.s, st.pumps[g], g, step)), st.pumps[g := PumpNext(st.s, st.pumps[g], g, step)])
  {
  }

  lemma LaunchMoves(st: State, step: LaunchStep)
    requires Base(st) && Processes(st) && Enabled(st, LaunchL(step))
    ensures AtRest(LaunchNext(st, step)) || MayLaunch(st.gate)
    ensures LaunchSound(Apply(st.s, LaunchSection(st, step)), LaunchNext(st, step), NextPumps(st, LaunchL(step)),
                        if step.Start? then st.next + 1 else st.next)
  {
  }

  lemma OthersSpareLaunch(st: State, l: Label)
    requires Base(st) && Processes(st) && Enabled(st, l) && !l.LaunchL?
    ensures AtRest(NextLaunch(st, l)) || MayLaunch(NextGate(st, l))
    ensures LaunchSound(Apply(st.s, SectionOf(st, l)), NextLaunch(st, l), NextPumps(st, l), st.next)
  {
    match l {
      case PumpL(g, step) => PumpKeepsOwners(st, g, step);
      case PromptL(step) =>
      case CloseL(step) =>
      case _ =>
    }
  }

  lemma AliveStaysOwned(st: State, l: Label)
    requires Base(st) && Processes(st) && Enabled(st, l)
    ensures var orphan' := if l.LaunchL? && l.launch.Abandoned? then Some(st.launch.g) else st.orphan;
            && NextAlive(st, l) <= Owners(Apply(st.s, SectionOf(st, l)), NextLaunch(st, l), orphan')
            && (orphan'.Some? ==> st.s.closing && NextLaunch(st, l).Refused? && Runtime(st.s, SectionOf(st, l)).None?)
  {
    match l {
      case LaunchL(step) => LaunchKeepsOwners(st, step);
      case PumpL(g, step) => PumpKeepsOwners(st, g, step);
      case _ => OthersKeepOwners(st, l);
    }
  }

  lemma OthersKeepOwners(st: State, l: Label)
    requires Enabled(st, l) && !l.PumpL? && !l.LaunchL?
    ensures var x := SectionOf(st, l);
            && (Runtime(st.s, x) == st.s.runtime || Runtime(st.s, x).None?)
            && Retired(st.s, x) == if Runtime(st.s, x) == st.s.runtime then st.s.retired else st.s.runtime
  {
  }

  lemma LaunchKeepsOwners(st: State, step: LaunchStep)
    requires Processes(st) && Enabled(st, LaunchL(step))
    ensures var orphan' := if step.Abandoned? then Some(st.launch.g) else st.orphan;
            && NextAlive(st, LaunchL(step)) <= Owners(Apply(st.s, LaunchSection(st, step)), LaunchNext(st, step), orphan')
            && (orphan'.Some? ==> st.s.closing && LaunchNext(st, step).Refused? && Runtime(st.s, LaunchSection(st, step)).None?)
  {
  }

  /** What a pump unbinds it retires. */
  lemma PumpKeepsOwners(st: State, g: Gen, step: PumpStep)
    requires Enabled(st, PumpL(g, step))
    ensures var x := PumpSection(st.s, st.pumps[g], g, step);
            && (Runtime(st.s, x) == st.s.runtime || Runtime(st.s, x).None?)
            && Retired(st.s, x) == if Runtime(st.s, x) == st.s.runtime then st.s.retired else st.s.runtime
  {
  }

  lemma StepKeepsProcesses(st: State, l: Label)
    requires Base(st) && Processes(st) && Enabled(st, l)
    ensures Processes(Next(st, l))
  {
    RuntimeStaysPumped(st, l);
    if l.LaunchL? { LaunchMoves(st, l.launch); } else { OthersSpareLaunch(st, l); }
    AliveStaysOwned(st, l);
  }

  /******* The stream *******/

  /** No opening is left, and none can start, once close has fenced. */
  predicate ClosedFenced(s: Shared, c: Close) {
    c.rung == Closed ==> !s.active && s.opener.None?
  }

  /** A generation runtimeEnded has cut off: unbound for good, its stream fenced, no opening for it left. */
  predicate CutOff(s: Shared, pumps: map<Gen, Pump>, g: Gen) {
    && g in pumps
    && s.runtime != Some(g) && s.opener != Some(g)
    && !(s.active && s.streamGen == Some(g))
  }

  ghost predicate Streams(st: State) {
    && ClosedFenced(st.s, st.close)
    && forall g :: g in st.cut ==> CutOff(st.s, st.pumps, g)
  }

  lemma FenceStays(st: State, l: Label)
    requires Base(st) && Streams(st) && Enabled(st, l)
    ensures ClosedFenced(Apply(st.s, SectionOf(st, l)), if l.CloseL? then CloseNext(st.s, st.close, l.close) else st.close)
  {
    match l {
      case CloseL(step) => if CloseNext(st.s, st.close, step).rung == Closed { CloseFences(st, step); }
      case _ =>
        if st.close.rung == Closed { ClosedStreamStays(st, l); }
    }
  }

  lemma CloseFences(st: State, step: CloseStep)
    requires Enabled(st, CloseL(step)) && CloseNext(st.s, st.close, step).rung == Closed
    ensures CloseSection(st.close, step).FenceStream? && st.s.opener.None?
  {
  }

  lemma ClosedStreamStays(st: State, l: Label)
    requires Enabled(st, l) && st.s.closing && !st.s.active && st.s.opener.None? && !l.CloseL?
    ensures !Active(st.s, SectionOf(st, l)) && Opener(st.s, SectionOf(st, l)).None?
  {
  }

  lemma CutStays(st: State, l: Label, g: Gen)
    requires Base(st) && Processes(st) && Enabled(st, l)
    requires CutOff(st.s, st.pumps, g) || (g in NextCut(st, l) && g !in st.cut)
    ensures CutOff(Apply(st.s, SectionOf(st, l)), NextPumps(st, l), g)
  {
    match l {
      case PumpL(x, step) => PumpCutStays(st, x, step, g);
      case _ =>
    }
  }

  lemma PumpCutStays(st: State, x: Gen, step: PumpStep, g: Gen)
    requires Base(st) && Processes(st) && Enabled(st, PumpL(x, step))
    requires CutOff(st.s, st.pumps, g) || (g in NextCut(st, PumpL(x, step)) && g !in st.cut)
    ensures CutOff(Apply(st.s, PumpSection(st.s, st.pumps[x], x, step)), st.pumps[x := PumpNext(st.s, st.pumps[x], x, step)], g)
  {
  }

  lemma StepKeepsStreams(st: State, l: Label)
    requires Base(st) && Processes(st) && Streams(st) && Enabled(st, l)
    ensures Streams(Next(st, l))
  {
    FenceStays(st, l);
    forall g | g in NextCut(st, l) ensures CutOff(Apply(st.s, SectionOf(st, l)), NextPumps(st, l), g) {
      CutStays(st, l, g);
    }
  }

  /******* Together *******/

  ghost predicate Inv(st: State) {
    && Base(st) && Settlements(st) && Processes(st) && Streams(st)
    && CallbacksJoined(st.s, st.gate, st.close)
  }

  lemma InitInv(ephemeral: bool)
    ensures Inv(Init(ephemeral))
  {
    InitBase(ephemeral);
    InitSettlements(ephemeral);
  }

  lemma StepKeeps(st: State, l: Label)
    requires Inv(st) && Enabled(st, l)
    ensures Inv(Next(st, l))
  {
    StepKeepsBase(st, l);
    StepKeepsSettlements(st, l);
    StepKeepsProcesses(st, l);
    StepKeepsStreams(st, l);
    CallbacksStayJoined(st, l);
  }

  lemma {:induction false} RunKeeps(st: State, ls: seq<Label>)
    requires Inv(st) && Legal(st, ls)
    ensures Inv(Run(st, ls))
    decreases |ls|
  {
    if ls != [] {
      StepKeeps(st, ls[0]);
      RunKeeps(Next(st, ls[0]), ls[1..]);
    }
  }

  lemma {:induction false} RunOnwards(st: State, ls: seq<Label>, f: Fid)
    requires Inv(st) && Legal(st, ls) && f in st.s.fg
    ensures f in Run(st, ls).s.fg && Run(st, ls).s.fg[f].kind == st.s.fg[f].kind
    decreases |ls|
  {
    if ls != [] {
      StepEvolves(st, ls[0]);
      assert Ages(st.s.fg[f], Next(st, ls[0]).s.fg[f]);
      StepKeeps(st, ls[0]);
      RunOnwards(Next(st, ls[0]), ls[1..], f);
    }
  }
}
