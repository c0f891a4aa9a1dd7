/**
 Where the generation of a live cycle stands while the cycle holds the slot, closes included: bound, or with its pump
 finished; and an operation that is setting a generation up is setting up that one.
 */
module SessionSlots {
  import opened Options
  import opened SessionState
  import opened SessionMachine
  import opened SessionFacts
  import opened SessionSettlement
  import opened SessionProcesses
  import opened SessionCycles

  predicate Finished(p: Pump) {
    p.Releasing? || p.Done?
  }

  /** The generation a launch has bound and not yet handed on. */
  function SettingUp(launch: Launch): Option<Gen> {
    match launch
    case Configuring(g) => Some(g)
    case Streaming(g) => Some(g)
    case Stopping(g) => Some(g)
    case _ => None
  }

  /** A generation being set up is the one bound, if any is. */
  predicate SetUpBound(s: Shared, launch: Launch) {
    SettingUp(launch).Some? && s.runtime.Some? ==> SettingUp(launch) == s.runtime
  }

  predicate SlotStands(s: Shared, pumps: map<Gen, Pump>, launch: Launch) {
    s.cycle.Some? && LiveRun(s, s.cycle.value) ==>
      var h := GenOf(s, s.cycle.value);
      && (s.runtime == Some(h) || Finished(PumpOf(pumps, h)))
      && (SettingUp(launch).Some? ==> SettingUp(launch) == Some(h))
  }

  predicate Slots(st: State) {
    SetUpBound(st.s, st.launch) && SlotStands(st.s, st.pumps, st.launch)
  }

  lemma SetUpStaysBound(st: State, l: Label)
    requires Processes(st) && Enabled(st, l) && SetUpBound(st.s, st.launch)
    ensures SetUpBound(Apply(st.s, SectionOf(st, l)), NextLaunch(st, l))
  {
    match l {
      case LaunchL(step) =>
      case PumpL(g, step) => PumpKeepsOwners(st, g, step);
      case _ => OthersKeepOwners(st, l);
    }
  }

  /** A finished pump takes no step but to finish. */
  lemma FinishedStays(st: State, l: Label, h: Gen)
    requires Processes(st) && Enabled(st, l) && Finished(PumpOf(st.pumps, h)) && st.s.closing
    ensures Finished(PumpOf(NextPumps(st, l), h))
  {
    if !(l.PumpL? && l.g == h) { PumpMoves(st, l, h); }
  }

  /** Under a close a generation is unbound by its own pump, which has then finished, or after that pump has. */
  lemma UnboundFinished(st: State, l: Label, h: Gen, f: Fid)
    requires Stepping(st, l) && st.s.closing && st.s.runtime == Some(h) && Runtime(st.s, SectionOf(st, l)) != Some(h)
    requires st.s.cycle == Some(f) && LiveRun(st.s, f) && GenOf(st.s, f) == h && Live(Apply(st.s, SectionOf(st, l)), f)
    ensures Finished(PumpOf(NextPumps(st, l), h))
  {
    match l {
      case PumpL(g, step) =>
        PumpUnbinds(st, g, step, h);
        NotDropping(st, h, f);
      case LaunchL(step) => LaunchUnbinds(st, step, h);
      case CloseL(step) => CloseUnbinds(st, step, h);
      case _ => OthersKeepOwners(st, l);
    }
  }

  /** A pump drops its generation only once its run is dead. */
  lemma NotDropping(st: State, h: Gen, f: Fid)
    requires PumpsKnow(st.s.fg, st.pumps) && PumpsSound(st.s, st.pumps) && SlotClean(st.s, st.close, st.pumps)
    requires h in st.pumps && st.s.cycle == Some(f) && LiveRun(st.s, f) && GenOf(st.s, f) == h
    ensures !(st.pumps[h].Settling? && st.pumps[h].stage == Dropping)
  {
    assert PumpKnows(st.s.fg, h, st.pumps[h]) && PumpSound(st.s, st.pumps[h]);
  }

  lemma LaunchUnbinds(st: State, step: LaunchStep, h: Gen)
    requires Enabled(st, LaunchL(step)) && Careful(st, LaunchL(step)) && st.s.closing && st.s.runtime == Some(h)
    requires Runtime(st.s, LaunchSection(st, step)) != Some(h)
    ensures PumpOf(st.pumps, h).Done? && NextPumps(st, LaunchL(step)) == st.pumps
  {
  }

  lemma CloseUnbinds(st: State, step: CloseStep, h: Gen)
    requires Enabled(st, CloseL(step)) && Careful(st, CloseL(step)) && st.s.runtime == Some(h)
    requires Runtime(st.s, CloseSection(st.close, step)) != Some(h)
    ensures PumpOf(st.pumps, h).Done? && NextPumps(st, CloseL(step)) == st.pumps
  {
  }

  lemma PumpUnbinds(st: State, g: Gen, step: PumpStep, h: Gen)
    requires Enabled(st, PumpL(g, step)) && st.s.runtime == Some(h)
    requires Runtime(st.s, PumpSection(st.s, st.pumps[g], g, step)) != Some(h)
    ensures g == h
    ensures PumpNext(st.s, st.pumps[g], g, step).Releasing? || (st.pumps[g].Settling? && st.pumps[g].stage == Dropping)
  {
  }

  /** No generation is newly set up while a live cycle holds the slot. */
  lemma NoneSetUpBeside(st: State, l: Label, f: Fid)
    requires Stepping(st, l) && st.s.cycle == Some(f) && LiveRun(st.s, f)
    ensures SettingUp(NextLaunch(st, l)).Some? ==> SettingUp(NextLaunch(st, l)) == SettingUp(st.launch)
  {
    if SettingUp(NextLaunch(st, l)).Some? && l.LaunchL? {
      LaunchSetsUp(st, l.launch);
      if !st.s.closing { NoneStarted(st, f); }
    }
  }

  lemma NoneStarted(st: State, f: Fid)
    requires LaunchSound(st.s, st.launch, st.pumps, st.next) && SlotClean(st.s, st.close, st.pumps)
    requires st.s.cycle == Some(f) && LiveRun(st.s, f) && !st.s.closing
    ensures !st.launch.Started?
  {
  }

  lemma LaunchSetsUp(st: State, step: LaunchStep)
    requires Enabled(st, LaunchL(step)) && SettingUp(LaunchNext(st, step)).Some?
    ensures SettingUp(LaunchNext(st, step)) == SettingUp(st.launch) || (st.launch.Started? && !st.s.closing)
  {
  }

  lemma SlotStaysStanding(st: State, l: Label, f: Fid)
    requires Stepping(st, l) && SlotStands(st.s, st.pumps, st.launch) && st.s.cycle == Some(f) && LiveRun(st.s, f)
    requires Live(Apply(st.s, SectionOf(st, l)), f) && GenOf(Apply(st.s, SectionOf(st, l)), f) == GenOf(st.s, f)
    ensures var h := GenOf(st.s, f);
            && (Runtime(st.s, SectionOf(st, l)) == Some(h) || Finished(PumpOf(NextPumps(st, l), h)))
            && (SettingUp(NextLaunch(st, l)).Some? ==> SettingUp(NextLaunch(st, l)) == Some(h))
  {
    var h := GenOf(st.s, f);
    NoneSetUpBeside(st, l, f);
    if !st.s.closing {
      RuntimeKept(st, l, f);
    } else if st.s.runtime == Some(h) {
      if Runtime(st.s, SectionOf(st, l)) != Some(h) { UnboundFinished(st, l, h, f); }
    } else {
      FinishedStays(st, l, h);
    }
  }

  lemma SlotWonStands(st: State, l: Label, f: Fid)
    requires Stepping(st, l) && SetUpBound(st.s, st.launch) && f in st.s.fg
    requires st.s.cycle != Some(f) && Cycle(st.s, SectionOf(st, l)) == Some(f)
    ensures Runtime(st.s, SectionOf(st, l)) == Some(GenOf(st.s, f)) && NextLaunch(st, l) == st.launch
    ensures SettingUp(st.launch).Some? ==> SettingUp(st.launch) == Some(GenOf(st.s, f))
  {
    SlotWonByOwn(st, l, f);
  }

  lemma StepKeepsSlots(st: State, l: Label)
    requires Stepping(st, l) && Slots(st)
    ensures Slots(Next(st, l))
  {
    var next := Next(st, l);
    SetUpStaysBound(st, l);
    StepKeeps(st, l);
    StepEvolves(st, l);
    if next.s.cycle.Some? && LiveRun(next.s, next.s.cycle.value) {
      var f := next.s.cycle.value;
      if st.s.cycle == Some(f) {
        assert NotAhead(st.s, f) && Ages(st.s.fg[f], next.s.fg[f]);
        LiveBefore(st.s, next.s, f);
        SlotStaysStanding(st, l, f);
      } else {
        WonKnown(st, l, f);
        assert Ages(st.s.fg[f], next.s.fg[f]);
        SlotWonStands(st, l, f);
      }
    }
  }

  lemma WonKnown(st: State, l: Label, f: Fid)
    requires Base(st) && Enabled(st, l) && st.s.cycle != Some(f) && Cycle(st.s, SectionOf(st, l)) == Some(f)
    ensures f in st.s.fg
  {
    if l.PumpL? {
      PumpFillsSlot(st, l.g, l.pump, f);
      assert PumpKnows(st.s.fg, l.g, st.pumps[l.g]);
    } else {
      OthersFillNoSlot(st, l);
    }
  }

  lemma {:induction false} RunKeepsSlots(st: State, ls: seq<Label>)
    requires Inv(st) && Cycles(st) && Slots(st) && Legal(st, ls) && Clean(Run(st, ls))
    ensures Inv(Run(st, ls)) && Cycles(Run(st, ls)) && Slots(Run(st, ls))
    decreases |ls|
  {
    if ls != [] {
      StaysClean(st, ls);
      StepKeeps(st, ls[0]);
      StepKeepsCycles(st, ls[0]);
      StepKeepsSlots(st, ls[0]);
      RunKeepsSlots(Next(st, ls[0]), ls[1..]);
    }
  }

  lemma ReachedSlots(ephemeral: bool, ls: seq<Label>)
    requires Legal(Init(ephemeral), ls) && Clean(Run(Init(ephemeral), ls))
    ensures var st := Run(Init(ephemeral), ls); Inv(st) && Cycles(st) && Slots(st)
  {
    InitInv(ephemeral);
    InitCycles(ephemeral);
    RunKeepsSlots(Init(ephemeral), ls);
  }
}
