/**
 When one more sample lets an agent run end twice, closes included. Once the run's owner is past its events nothing
 keeps the close ladder from its last rung, which ends the run beside the pump that has sampled it.
 */
module SessionLadder {
  import opened Options
  import opened SessionState
  import opened SessionMachine
  import opened SessionFacts
  import opened SessionSettlement
  import opened SessionProcesses
  import opened SessionCycles
  import opened SessionSlots
  import opened SessionScenes
  import opened SessionContests

  /** A close has yet to take the run from the slot; the run's owner is past its events, the sampler at work on it. */
  ghost predicate Held(st: State, g: Gen, h: Gen, f: Fid) {
    && Inv(st) && g in st.pumps && st.pumps[g] == Work(f)
    && st.s.closing && st.s.cycle == Some(f) && LiveRun(st.s, f) && st.s.callbacks == map[] && st.s.opener.None?
    && Quits(PumpOf(st.pumps, h))
    && Owes(st.close, h) && SetsUp(st.launch, h)
  }

  /** The close stops that generation, has yet to take the cycle, and has not failed to commit. */
  predicate Owes(c: Close, h: Gen) {
    c.rt == Some(h) && !Past(c) && c.committed != Some(false)
  }

  predicate SetsUp(launch: Launch, h: Gen) {
    SettingUp(launch).Some? ==> SettingUp(launch) == Some(h)
  }

  /** Sections that, under a close, leave a live run in the slot and admit nothing. */
  predicate Gentle(x: Section) {
    x.NoSection? || x.Install? || x.Idle? || x.End? || x.Bound? || x.Drop? || x.Unbound? || x.CommitAll?
  }

  lemma GentleSpares(s: Shared, x: Section, f: Fid)
    requires Gentle(x) && s.closing && s.cycle == Some(f) && LiveRun(s, f)
    ensures var t := Apply(s, x);
            t.closing && t.cycle == Some(f) && LiveRun(t, f) && t.callbacks == s.callbacks && t.opener == s.opener
  {
  }

  lemma HeldOn(st: State, l: Label, g: Gen, h: Gen, f: Fid)
    requires Held(st, g, h, f) && Enabled(st, l) && Careful(st, l) && Gentle(SectionOf(st, l)) && !(l.PumpL? && l.g == g)
    requires Quits(PumpOf(NextPumps(st, l), h)) && Owes(CloseAfter(st, l), h) && SetsUp(NextLaunch(st, l), h)
    ensures Reaches(st, Next(st, l)) && Held(Next(st, l), g, h, f)
  {
    StepKeeps(st, l);
    PumpMoves(st, l, g);
    GentleSpares(st.s, SectionOf(st, l), f);
    ReachesNext(st, l);
  }

  /******* The owner finishes *******/

  function LegsLeft(p: Pump): nat {
    match p
    case Ending(_, _, JoinLeg) => 5
    case Ending(_, _, IdleLeg) => 4
    case Ending(_, _, TurnLeg) => 3
    case Ending(_, _, UnbindLeg) => 2
    case Releasing => 1
    case _ => 0
  }

  function QuitStep(p: Pump): PumpStep {
    match p
    case Ending(_, _, JoinLeg) => JoinEnded
    case Ending(_, _, IdleLeg) => FailCycle
    case Ending(_, _, TurnLeg) => EndTurn
    case Ending(_, _, UnbindLeg) => UnbindRuntime
    case _ => Release
  }

  lemma QuitStepGentle(s: Shared, p: Pump, h: Gen)
    requires Quits(p) && !p.Done? && s.callbacks == map[] && s.opener.None?
    ensures PumpEnabled(s, p, QuitStep(p)) && Gentle(PumpSection(s, p, h, QuitStep(p)))
    ensures Quits(PumpNext(s, p, h, QuitStep(p))) && LegsLeft(PumpNext(s, p, h, QuitStep(p))) < LegsLeft(p)
  {
  }

  lemma {:induction false} OwnerFinishes(st: State, g: Gen, h: Gen, f: Fid) returns (end: State)
    requires Held(st, g, h, f) && g != h
    ensures Reaches(st, end) && Held(end, g, h, f) && PumpOf(end.pumps, h).Done?
    decreases LegsLeft(PumpOf(st.pumps, h))
  {
    if PumpOf(st.pumps, h).Done? {
      ReachesItself(st);
      end := st;
    } else {
      var l := PumpL(h, QuitStep(st.pumps[h]));
      QuitStepGentle(st.s, st.pumps[h], h);
      HeldOn(st, l, g, h, f);
      end := OwnerFinishes(Next(st, l), g, h, f);
      ReachesOn(st, Next(st, l), end);
    }
  }

  /******* The gate becomes free *******/

  function LaunchLeft(launch: Launch): nat {
    match launch
    case Started(_) => 2
    case Configuring(_) => 2
    case _ => if AtRest(launch) then 0 else 1
  }

  function GateLeft(gate: Gate, launch: Launch): nat {
    match gate
    case Prompting(Leaving) => 1
    case Prompting(_) => 2
    case Operating => 1 + LaunchLeft(launch)
    case _ => 0
  }

  function LaunchOut(launch: Launch): LaunchStep {
    match launch
    case Started(_) => BindRuntime
    case Configuring(_) => Configured(true)
    case Streaming(_) => LaunchStep.Published(false)
    case Stopping(_) => Stopped(true)
    case Abandoning(_) => Abandoned
    case _ => Refuse
  }

  ghost function GateOut(st: State): Label {
    match st.gate
    case Prompting(Gated) => PromptL(PromptStep.Install(Above(st.s.fg.Keys)))
    case Prompting(Finishing(_)) => PromptL(PromptStep.Finish)
    case Prompting(_) => PromptL(Leave)
    case _ => if AtRest(st.launch) then OpRelease else LaunchL(LaunchOut(st.launch))
  }

  /** The holder of the gate has no turn and can step towards leaving it. */
  lemma PromptOuts(st: State, g: Gen, h: Gen, f: Fid)
    requires Held(st, g, h, f) && st.gate.Prompting?
    ensures var l := GateOut(st);
            && Enabled(st, l) && Gentle(SectionOf(st, l)) && NextLaunch(st, l) == st.launch && l.PromptL?
            && GateLeft(NextGate(st, l), NextLaunch(st, l)) < GateLeft(st.gate, st.launch)
            && (NextGate(st, l).Prompting? || NextGate(st, l).Free?)
  {
  }

  lemma LaunchOuts(st: State, g: Gen, h: Gen, f: Fid)
    requires Held(st, g, h, f) && st.gate.Operating? && PumpOf(st.pumps, h).Done? && !AtRest(st.launch)
    ensures var l := LaunchL(LaunchOut(st.launch));
            && Enabled(st, l) && Careful(st, l) && Gentle(SectionOf(st, l)) && SetsUp(NextLaunch(st, l), h)
            && LaunchLeft(NextLaunch(st, l)) < LaunchLeft(st.launch) && PumpOf(NextPumps(st, l), h).Done?
  {
  }

  lemma GateOuts(st: State, g: Gen, h: Gen, f: Fid)
    requires Held(st, g, h, f) && PumpOf(st.pumps, h).Done? && !st.gate.Free? && !st.gate.Closer?
    ensures var l := GateOut(st);
            && Enabled(st, l) && Reaches(st, Next(st, l)) && Held(Next(st, l), g, h, f) && Next(st, l).close == st.close
            && PumpOf(Next(st, l).pumps, h).Done? && !Next(st, l).gate.Closer?
            && GateLeft(Next(st, l).gate, Next(st, l).launch) < GateLeft(st.gate, st.launch)
  {
    if st.gate.Prompting? {
      PromptOuts(st, g, h, f);
    } else if !AtRest(st.launch) {
      LaunchOuts(st, g, h, f);
    }
    HeldOn(st, GateOut(st), g, h, f);
  }

  lemma {:induction false} GateFrees(st: State, g: Gen, h: Gen, f: Fid) returns (end: State)
    requires Held(st, g, h, f) && PumpOf(st.pumps, h).Done? && !st.gate.Closer?
    ensures Reaches(st, end) && Held(end, g, h, f) && PumpOf(end.pumps, h).Done? && end.close == st.close && end.gate.Free?
    decreases GateLeft(st.gate, st.launch)
  {
    if st.gate.Free? {
      ReachesItself(st);
      end := st;
    } else {
      GateOuts(st, g, h, f);
      var next := Next(st, GateOut(st));
      end := GateFrees(next, g, h, f);
      ReachesOn(st, next, end);
    }
  }

  /******* The ladder *******/

  function RungsLeft(rung: Rung): nat {
    match rung
    case JoinRung => 5
    case StopRung => 4
    case GateRung => 3
    case SampleRung => 2
    case OwedRung => 1
    case _ => 0
  }

  function RungStep(rung: Rung): CloseStep {
    match rung
    case JoinRung => JoinCallbacks
    case StopRung => Stop(true)
    case GateRung => EnterGate
    case SampleRung => SamplePersisted
    case _ => CommitOwed(true)
  }

  lemma RungSteps(st: State, h: Gen)
    requires Owes(st.close, h) && st.close.rung != Unclosed && st.close.rung != TakeRung
    requires st.s.callbacks == map[] && PumpOf(st.pumps, h).Done? && (st.close.rung == GateRung ==> !st.close.joins || st.gate.Free?)
    ensures var step := RungStep(st.close.rung);
            && Enabled(st, CloseL(step)) && Careful(st, CloseL(step)) && Gentle(CloseSection(st.close, step))
            && Owes(CloseNext(st.s, st.close, step), h) && RungsLeft(CloseNext(st.s, st.close, step).rung) < RungsLeft(st.close.rung)
  {
  }

  lemma RungClimbed(st: State, g: Gen, h: Gen, f: Fid)
    requires Held(st, g, h, f) && PumpOf(st.pumps, h).Done? && st.close.rung != TakeRung
    requires st.close.rung == GateRung ==> !st.close.joins || st.gate.Free?
    ensures var l := CloseL(RungStep(st.close.rung));
            && Enabled(st, l) && Reaches(st, Next(st, l)) && Held(Next(st, l), g, h, f)
            && PumpOf(Next(st, l).pumps, h).Done? && RungsLeft(Next(st, l).close.rung) < RungsLeft(st.close.rung)
  {
    RungSteps(st, h);
    HeldOn(st, CloseL(RungStep(st.close.rung)), g, h, f);
  }

  lemma {:induction false} Climbs(st: State, g: Gen, h: Gen, f: Fid) returns (end: State)
    requires Held(st, g, h, f) && PumpOf(st.pumps, h).Done?
    ensures Reaches(st, end) && Held(end, g, h, f) && end.close.rung == TakeRung
    decreases RungsLeft(st.close.rung)
  {
    if st.close.rung == TakeRung {
      ReachesItself(st);
      end := st;
    } else {
      var at := st;
      if st.close.rung == GateRung { at := GateFrees(st, g, h, f); } else { ReachesItself(st); }
      RungClimbed(at, g, h, f);
      var next := Next(at, CloseL(RungStep(at.close.rung)));
      end := Climbs(next, g, h, f);
      ReachesOn(st, at, next);
      ReachesOn(st, next, end);
    }
  }

  lemma TakesFromSlot(st: State)
    requires st.close.rung == TakeRung
    ensures Reaches(st, st.(s := st.s.(cycle := None), close := st.close.(rung := LastRung, taken := st.s.cycle)))
  {
    assert Next(st, CloseL(CloseStep.TakeCycle))
        == st.(s := st.s.(cycle := None), close := st.close.(rung := LastRung, taken := st.s.cycle));
    ReachesNext(st, CloseL(CloseStep.TakeCycle));
  }

  lemma CloseIdles(st: State, f: Fid) returns (end: State)
    requires st.close.rung == LastRung && st.close.taken == Some(f) && st.close.committed != Some(false) && LiveRun(st.s, f)
    ensures Reaches(st, end) && end.pumps == st.pumps
    ensures LiveRun(end.s, f) && end.s.callbacks == st.s.callbacks && end.s.fg[f].published != []
  {
    end := Next(st, CloseL(IdleCycle));
    ReachesNext(st, CloseL(IdleCycle));
  }

  /** From its last rungs the close ends the run, and so does the sampler. */
  lemma LadderEnds(st: State, g: Gen, h: Gen, f: Fid)
    requires Held(st, g, h, f) && st.close.rung == TakeRung
    ensures CanEndTwice(st, f)
  {
    TakesFromSlot(st);
    var taken := st.(s := st.s.(cycle := None), close := st.close.(rung := LastRung, taken := st.s.cycle));
    var idled := CloseIdles(taken, f);
    ReachesOn(st, taken, idled);
    var end := WorkSettles(idled, g, f);
    ReachesOn(st, idled, end);
  }

  lemma HeldEndsTwice(st: State, g: Gen, h: Gen, f: Fid)
    requires Held(st, g, h, f) && g != h
    ensures CanEndTwice(st, f)
  {
    var a := OwnerFinishes(st, g, h, f);
    var b := Climbs(a, g, h, f);
    LadderEnds(b, g, h, f);
    ReachesOn(st, a, b);
    EndsTwiceFrom(st, b, f);
  }

  /******* Exactly when *******/

  lemma SampleHeld(st: State, g: Gen, work: bool, f: Fid) returns (end: State)
    requires Sampling(st, g, f) && st.s.runtime != Some(g) && st.close.committed != Some(false)
    requires st.s.closing && Quits(PumpOf(st.pumps, GenOf(st.s, f)))
    ensures Reaches(Next(st, PumpL(g, Look(work))), end) && Held(end, g, GenOf(st.s, f), f)
  {
    var next := Next(st, PumpL(g, Look(work)));
    Owner(st, g, f);
    SampledOwes(st, g, f);
    SampleTakes(st, g, work, f);
    StepKeeps(st, PumpL(g, Look(work)));
    var still := OpenerLeaves(next);
    end := Drains(still);
    ReachesOn(next, still, end);
    ReachesKeeps(next, end);
  }

  lemma SampledOwes(st: State, g: Gen, f: Fid)
    requires Sampling(st, g, f) && st.s.closing && st.close.committed != Some(false)
    ensures Owes(st.close, GenOf(st.s, f)) && SetsUp(st.launch, GenOf(st.s, f))
  {
  }

  lemma OpenerLeaves(st: State) returns (end: State)
    ensures Reaches(st, end) && end == st.(s := st.s.(opener := None))
  {
    if st.s.opener.None? {
      ReachesItself(st);
      end := st;
    } else {
      end := Next(st, OpenDone(false));
      ReachesNext(st, OpenDone(false));
    }
  }

  lemma ReachesKeeps(st: State, end: State)
    requires Inv(st) && Reaches(st, end)
    ensures Inv(end)
  {
    var ls :| Leads(st, ls, end) && CarefulRun(st, ls);
    RunKeeps(st, ls);
  }

  lemma ForeignSampleEndsTwice(st: State, g: Gen, work: bool, f: Fid)
    requires Sampling(st, g, f) && st.s.runtime != Some(g)
    requires !AboutToFence(st, f) && st.close.committed != Some(false)
    ensures CanEndTwice(Next(st, PumpL(g, Look(work))), f)
  {
    var h := GenOf(st.s, f);
    var next := Next(st, PumpL(g, Look(work)));
    Owner(st, g, f);
    if Owned(st, h, f) {
      BothEnd(next, g, h, f);
    } else {
      var held := SampleHeld(st, g, work, f);
      HeldEndsTwice(held, g, h, f);
      EndsTwiceFrom(next, held, f);
    }
  }

  /** A close that has failed to commit has stopped the owner, and unbound it. */
  lemma FailedCloseForgoes(st: State, g: Gen, f: Fid)
    requires Sampling(st, g, f) && st.close.committed == Some(false)
    ensures Forgone(st, GenOf(st.s, f))
  {
  }

  lemma SampleEndsTwiceWhen(st: State, g: Gen, work: bool, f: Fid)
    requires Sampling(st, g, f)
    ensures CanEndTwice(Next(st, PumpL(g, Look(work))), f) <==>
              st.s.runtime != Some(g) && !AboutToFence(st, f) && st.close.committed != Some(false)
  {
    if st.s.runtime == Some(g) {
      OwnSampleEndsOnce(st, g, work, f);
    } else if AboutToFence(st, f) || st.close.committed == Some(false) {
      Owner(st, g, f);
      if !AboutToFence(st, f) { FailedCloseForgoes(st, g, f); }
      SampleLoses(st, g, work, f);
      DoomedEndsOnce(Next(st, PumpL(g, Look(work))), g, GenOf(st.s, f), f);
    } else {
      ForeignSampleEndsTwice(st, g, work, f);
    }
  }

  /** After a sample of a live cycle, otherwise careful steps can end that run twice exactly when the sampler's generation
      is no longer bound, the owner is not about to fence for a failed commit, and no close has failed to commit. */
  lemma SampleEndsTwiceExactly(ephemeral: bool, ls: seq<Label>, g: Gen, work: bool, f: Fid)
    requires Legal(Init(ephemeral), ls) && Clean(Run(Init(ephemeral), ls))
    requires var st := Run(Init(ephemeral), ls);
             Enabled(st, PumpL(g, Look(work))) && st.s.cycle == Some(f) && LiveRun(st.s, f)
    ensures var st := Run(Init(ephemeral), ls);
            CanEndTwice(Next(st, PumpL(g, Look(work))), f) <==>
              st.s.runtime != Some(g) && !AboutToFence(st, f) && st.close.committed != Some(false)
  {
    ReachedSlots(ephemeral, ls);
    SampleEndsTwiceWhen(Run(Init(ephemeral), ls), g, work, f);
  }
}
