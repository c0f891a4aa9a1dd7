/**
 When one more sample lets an agent run's terminal event appear beside that run's own unresolved action: the pump that
 samples another's cycle can open a dialog of it after its owner has joined the callbacks.
 */
module SessionDialogs {
  import opened Options
  import opened SessionState
  import opened SessionMachine
  import opened SessionFacts
  import opened SessionSettlement
  import opened SessionProcesses
  import opened SessionCycles
  import opened SessionSlots
  import opened SessionQuiet
  import opened SessionTheorems
  import opened SessionScenes
  import opened SessionContests

  /** Careful steps can publish the run's terminal event while an action it announced is not resolved. */
  ghost predicate CanLeaveDialog(st: State, f: Fid) {
    exists end, l, cid :: Reaches(st, end) && LeavesDialog(end, l, cid, f)
  }

  predicate LeavesDialog(st: State, l: Label, cid: Cid, f: Fid) {
    Publishes(st, l, f) && cid in st.s.callbacks && st.s.callbacks[cid] == Dialog(f, true)
  }

  /******* The sampler talks while the owner's generation ends *******/

  /** The sampler and the owner are both at work on the run, and no callback is left. */
  predicate Beside(st: State, g: Gen, h: Gen, f: Fid) {
    && g != h && g in st.pumps && h in st.pumps && st.pumps[g] == Work(f)
    && st.s.runtime == Some(h) && !st.s.closing && st.s.turn.None? && LiveRun(st.s, f) && st.s.callbacks == map[]
  }

  function OutOfSlot(st: State, h: Gen, f: Fid, leg: Leg): State {
    st.(s := st.s.(cycle := None, ending := st.s.ending + {h}), pumps := st.pumps[h := Ending(Some(f), None, leg)])
  }

  function Talking(st: State, f: Fid): State {
    WithCallbacks(st, map[0 := Dialog(f, true)])
  }

  lemma EndingSection(s: Shared, h: Gen)
    requires s.runtime == Some(h) && !s.closing
    ensures Apply(s, StartEnding(h)) == s.(cycle := None, ending := s.ending + {h})
  {
  }

  lemma DialogSections(s: Shared, f: Fid)
    requires AdmitsDialog(s) && Live(s, f) && s.callbacks == map[]
    ensures Apply(s, Section.Register(f, 0)) == s.(callbacks := map[0 := Dialog(f, false)])
    ensures Apply(s.(callbacks := map[0 := Dialog(f, false)]), Section.Announce(0)) == s.(callbacks := map[0 := Dialog(f, true)])
  {
  }

  /** One step of a pump that neither unbinds nor looks for a foreground. */
  lemma PumpReaches(st: State, g: Gen, step: PumpStep, s: Shared, p: Pump)
    requires g in st.pumps && PumpEnabled(st.s, st.pumps[g], step) && !step.UnbindRuntime? && !step.Look?
    requires s == Apply(st.s, PumpSection(st.s, st.pumps[g], g, step)) && p == PumpNext(st.s, st.pumps[g], g, step)
    ensures Reaches(st, st.(s := s, pumps := st.pumps[g := p]))
  {
    assert Next(st, PumpL(g, step)) == st.(s := s, pumps := st.pumps[g := p]);
    ReachesNext(st, PumpL(g, step));
  }

  lemma StopsWork(st: State, h: Gen)
    requires h in st.pumps && st.pumps[h].Work?
    ensures Reaches(st, st.(pumps := st.pumps[h := Reading]))
  {
    NothingChanges(st.s);
    PumpReaches(st, h, FinishEvent, st.s, Reading);
  }

  lemma EndsReading(st: State, h: Gen, f: Fid)
    requires h in st.pumps && st.pumps[h].Reading? && st.s.runtime == Some(h) && !st.s.closing
    requires st.s.turn.None? && st.s.cycle == Some(f)
    ensures Reaches(st, OutOfSlot(st, h, f, JoinLeg))
  {
    EndingSection(st.s, h);
    PumpReaches(st, h, EndEvents, OutOfSlot(st, h, f, JoinLeg).s, Ending(Some(f), None, JoinLeg));
  }

  lemma StopsReading(st: State, h: Gen, f: Fid)
    requires h in st.pumps && st.pumps[h] == Work(f) && st.s.runtime == Some(h) && !st.s.closing
    requires st.s.turn.None? && st.s.cycle == Some(f)
    ensures Reaches(st, OutOfSlot(st, h, f, JoinLeg))
  {
    var read := st.(pumps := st.pumps[h := Reading]);
    StopsWork(st, h);
    EndsReading(read, h, f);
    assert read.pumps[h := Ending(Some(f), None, JoinLeg)] == OutOfSlot(st, h, f, JoinLeg).pumps;
    ReachesOn(st, read, OutOfSlot(st, h, f, JoinLeg));
  }

  lemma JoinsAlone(st: State, h: Gen, f: Fid)
    requires h in st.pumps && st.pumps[h] == Ending(Some(f), None, JoinLeg) && st.s.callbacks == map[]
    ensures Reaches(st, st.(pumps := st.pumps[h := Ending(Some(f), None, IdleLeg)]))
  {
    NothingChanges(st.s);
    PumpReaches(st, h, JoinEnded, st.s, Ending(Some(f), None, IdleLeg));
  }

  lemma EndsBeside(st: State, h: Gen, f: Fid)
    requires h in st.pumps && st.pumps[h] == Work(f) && st.s.runtime == Some(h) && !st.s.closing && st.s.callbacks == map[]
    requires st.s.turn.None? && st.s.cycle == Some(f)
    ensures Reaches(st, OutOfSlot(st, h, f, IdleLeg))
  {
    StopsReading(st, h, f);
    JoinsAlone(OutOfSlot(st, h, f, JoinLeg), h, f);
    assert OutOfSlot(st, h, f, JoinLeg).pumps[h := Ending(Some(f), None, IdleLeg)] == OutOfSlot(st, h, f, IdleLeg).pumps;
    ReachesOn(st, OutOfSlot(st, h, f, JoinLeg), OutOfSlot(st, h, f, IdleLeg));
  }

  lemma Talks(st: State, g: Gen, h: Gen, f: Fid)
    requires Beside(st, g, h, f) && st.s.cycle.None?
    ensures Reaches(st, Talking(st, f))
  {
    DialogSections(st.s, f);
    var admitted := WithCallbacks(st, map[0 := Dialog(f, false)]);
    PumpReaches(st, g, Admit(0), admitted.s, Work(f));
    assert st.pumps[g := Work(f)] == st.pumps;
    assert Next(admitted, AnnounceL(0)) == Talking(st, f);
    ReachesNext(admitted, AnnounceL(0));
    ReachesOn(st, admitted, Talking(st, f));
  }

  lemma FailsBeside(st: State, h: Gen, f: Fid)
    requires h in st.pumps && st.pumps[h] == Ending(Some(f), None, IdleLeg) && Live(st.s, f)
    requires st.s.callbacks == map[0 := Dialog(f, true)]
    ensures LeavesDialog(st, PumpL(h, FailCycle), 0, f)
  {
  }

  lemma TalksAtTheEnd(st: State, g: Gen, h: Gen, f: Fid)
    requires Beside(st, g, h, f) && st.pumps[h] == Work(f) && st.s.cycle == Some(f)
    ensures CanLeaveDialog(st, f)
  {
    var alone := OutOfSlot(st, h, f, IdleLeg);
    EndsBeside(st, h, f);
    Talks(alone, g, h, f);
    ReachesOn(st, alone, Talking(alone, f));
    FailsBeside(Talking(alone, f), h, f);
  }

  /** A sampler at work on a run whose owner has not begun to settle it can leave a dialog open. */
  lemma ForeignSampleLeavesDialog(st: State, g: Gen, h: Gen, f: Fid)
    requires g != h && g in st.pumps && st.pumps[g] == Work(f)
    requires Owned(st, h, f) && !st.pumps[h].Settling? && !st.s.closing
    ensures CanLeaveDialog(st, f)
  {
    var a := Drains(st);
    var b := OwnerArrives(a, h, f);
    ReachesOn(st, a, b);
    TalksAtTheEnd(b, g, h, f);
    var end, l, cid :| Reaches(b, end) && LeavesDialog(end, l, cid, f);
    ReachesOn(st, b, end);
  }

  /******* Dialogs of one run *******/

  predicate Dialogless(s: Shared, f: Fid) {
    forall cid :: cid in s.callbacks ==> !(s.callbacks[cid].Dialog? && s.callbacks[cid].f == f)
  }

  /** The pump has the run, clearing its slot included. */
  predicate Has(p: Pump, f: Fid) {
    MayPublish(p, f) || p == Settling(f, Clearing)
  }

  /** The pump is past a join it made for the run. */
  predicate HasJoined(p: Pump, f: Fid) {
    || (p.Settling? && p.f == f && p.stage != Mark && p.stage != Join)
    || (p.Ending? && p.c == Some(f) && p.leg == IdleLeg)
  }

  lemma DialogsAdmitted(s: Shared, x: Section, f: Fid)
    requires Dialogless(s, f) && !Dialogless(Apply(s, x), f)
    ensures x.Register? && x.f == f && AdmitsDialog(s)
  {
    var cid :| cid in Callbacks(s, x) && Callbacks(s, x)[cid].Dialog? && Callbacks(s, x)[cid].f == f;
    assert cid in s.callbacks ==> !(s.callbacks[cid].Dialog? && s.callbacks[cid].f == f);
  }

  /** A pump comes past a join by finding no callback. */
  lemma JoinsWithNoCallback(st: State, x: Gen, step: PumpStep, f: Fid)
    requires Enabled(st, PumpL(x, step)) && !HasJoined(st.pumps[x], f) && HasJoined(PumpNext(st.s, st.pumps[x], x, step), f)
    ensures st.s.callbacks == map[] && PumpSection(st.s, st.pumps[x], x, step).NoSection?
  {
  }

  /** The pump that publishes a run has joined for it. */
  lemma PublisherHasJoined(st: State, x: Gen, step: PumpStep, f: Fid)
    requires Enabled(st, PumpL(x, step))
    requires PumpSection(st.s, st.pumps[x], x, step).Idle? && PumpSection(st.s, st.pumps[x], x, step).f == f
    ensures HasJoined(st.pumps[x], f)
  {
  }

  /** No dialog of the run can be left at its event where every pump that has joined for it finds none. */
  lemma NoDialogAtEvent(st: State, l: Label, f: Fid)
    requires Inv(st) && Publishes(st, l, f) && st.s.fg[f].kind.Agent?
    requires forall x :: x in st.pumps && HasJoined(st.pumps[x], f) ==> Dialogless(st.s, f)
    ensures Dialogless(st.s, f)
  {
    match l {
      case PumpL(x, step) => PublisherHasJoined(st, x, step, f);
      case PromptL(step) => PromptPublishesTurn(st, step);
      case _ => ClosePublishesQuiet(st, l, f);
    }
  }

  /******* Under a close *******/

  /** A close admits no dialog, so whoever joins from then on, or has joined, finds none of the run. */
  ghost predicate ClosedOff(st: State, f: Fid) {
    && Inv(st) && st.s.closing && f in st.s.fg && st.s.fg[f].kind.Agent?
    && forall x :: x in st.pumps && HasJoined(st.pumps[x], f) ==> Dialogless(st.s, f)
  }

  lemma ClosedOffStays(st: State, l: Label, f: Fid)
    requires ClosedOff(st, f) && Enabled(st, l)
    ensures ClosedOff(Next(st, l), f)
  {
    StepKeeps(st, l);
    StepEvolves(st, l);
    assert Ages(st.s.fg[f], Next(st, l).s.fg[f]);
    forall x | x in NextPumps(st, l) && HasJoined(NextPumps(st, l)[x], f) ensures Dialogless(Apply(st.s, SectionOf(st, l)), f) {
      if l.PumpL? && l.g == x && !HasJoined(st.pumps[x], f) {
        JoinsWithNoCallback(st, x, l.pump, f);
      } else {
        if !(l.PumpL? && l.g == x) { PumpMoves(st, l, x); }
        if !Dialogless(Apply(st.s, SectionOf(st, l)), f) { DialogsAdmitted(st.s, SectionOf(st, l), f); }
      }
    }
  }

  lemma {:induction false} RunKeepsClosedOff(st: State, ls: seq<Label>, f: Fid)
    requires ClosedOff(st, f) && Legal(st, ls)
    ensures ClosedOff(Run(st, ls), f)
    decreases |ls|
  {
    if ls != [] {
      ClosedOffStays(st, ls[0], f);
      RunKeepsClosedOff(Next(st, ls[0]), ls[1..], f);
    }
  }

  lemma ClosedOffLeavesNone(st: State, f: Fid)
    requires ClosedOff(st, f)
    ensures !CanLeaveDialog(st, f)
  {
    forall end, l, cid | Reaches(st, end) && LeavesDialog(end, l, cid, f) ensures false {
      var ls :| Leads(st, ls, end) && CarefulRun(st, ls);
      RunKeepsClosedOff(st, ls, f);
      NoDialogAtEvent(end, l, f);
    }
  }

  /******* Beside an owner that is settling *******/

  /** The owner is done with the run, which is out of the slot. */
  predicate OwnerIsDone(st: State, h: Gen, f: Fid) {
    h in st.pumps && !Has(st.pumps[h], f) && st.s.cycle != Some(f) && (st.close.rung == LastRung ==> st.close.taken != Some(f))
  }

  ghost predicate Guard(st: State, g: Gen, h: Gen, f: Fid) {
    && g in st.pumps && (st.pumps[g].Work? || st.pumps[g].Settling? || !Has(st.pumps[g], f))
    && (forall x :: x in st.pumps && x != g && x != h ==> !Has(st.pumps[x], f))
    && (OwnerSettles(st, h, f) || OwnerIsDone(st, h, f))
    && (OwnerSettles(st, h, f) && st.pumps[g] == Work(f) ==> st.s.cycle == Some(f) || st.s.closing)
    && (HasJoined(st.pumps[g], f) || HasJoined(st.pumps[h], f) ==> Dialogless(st.s, f))
  }

  ghost predicate Guarded(st: State, g: Gen, h: Gen, f: Fid) {
    && Inv(st) && g != h && f in st.s.fg && st.s.fg[f].kind == Agent(h)
    && (Live(st.s, f) ==> Guard(st, g, h, f))
  }

  /** A careful step that leaves the run live. */
  ghost predicate Passing(st: State, l: Label, g: Gen, h: Gen, f: Fid) {
    Guarded(st, g, h, f) && Enabled(st, l) && Careful(st, l) && LiveRun(st.s, f) && Live(Apply(st.s, SectionOf(st, l)), f)
  }

  /** A pump comes to have a run it does not have only by sampling it from the slot, ending with it there, or minting it. */
  lemma TakesUp(st: State, x: Gen, step: PumpStep, f: Fid)
    requires Enabled(st, PumpL(x, step)) && f in st.s.fg && !Has(st.pumps[x], f) && st.s.fg[f].kind.Agent?
    requires IsTurn(st.s.fg, st.s.turn) && Careful(st, PumpL(x, step))
    requires st.s.cycle == Some(f) ==> Live(st.s, f) && st.s.runtime != Some(x)
    ensures !Has(PumpNext(st.s, st.pumps[x], x, step), f)
  {
  }

  lemma StaysWithout(st: State, l: Label, g: Gen, h: Gen, f: Fid, x: Gen)
    requires Passing(st, l, g, h, f) && x in NextPumps(st, l) && (x in st.pumps ==> !Has(st.pumps[x], f))
    requires x == h ==> OwnerIsDone(st, h, f)
    ensures !Has(NextPumps(st, l)[x], f)
  {
    if l.PumpL? && l.g == x { TakesUp(st, x, l.pump, f); } else { PumpMoves(st, l, x); }
  }

  lemma SamplerGoesOn(st: State, l: Label, g: Gen, h: Gen, f: Fid)
    requires Passing(st, l, g, h, f)
    ensures g in NextPumps(st, l)
    ensures var p := NextPumps(st, l)[g]; p.Work? || p.Settling? || !Has(p, f)
    ensures NextPumps(st, l)[g] == Work(f) ==> st.pumps[g] == Work(f)
  {
    if l.PumpL? && l.g == g {
      if !Has(st.pumps[g], f) { TakesUp(st, g, l.pump, f); } else { SamplerSteps(st, g, l.pump, f); }
    } else {
      PumpMoves(st, l, g);
    }
  }

  lemma SamplerSteps(st: State, g: Gen, step: PumpStep, f: Fid)
    requires Enabled(st, PumpL(g, step)) && (st.pumps[g] == Work(f) || (st.pumps[g].Settling? && st.pumps[g].f == f))
    ensures var p := PumpNext(st.s, st.pumps[g], g, step);
            (p.Work? || p.Settling? || !Has(p, f)) && (p == Work(f) ==> st.pumps[g] == Work(f))
  {
  }

  /** A dialog of the run is admitted only by the sampler, and not while the settling owner holds the slot. */
  lemma StaysDialogless(st: State, l: Label, g: Gen, h: Gen, f: Fid)
    requires Passing(st, l, g, h, f) && (HasJoined(st.pumps[g], f) || HasJoined(st.pumps[h], f))
    ensures Dialogless(Apply(st.s, SectionOf(st, l)), f)
  {
    assert PumpSound(st.s, st.pumps[h]);
    if !Dialogless(Apply(st.s, SectionOf(st, l)), f) {
      DialogsAdmitted(st.s, SectionOf(st, l), f);
      RegistersAtWork(st, l);
    }
  }

  lemma JoinedDialogless(st: State, l: Label, g: Gen, h: Gen, f: Fid)
    requires Passing(st, l, g, h, f)
    requires exists x :: (x == g || x == h) && x in NextPumps(st, l) && HasJoined(NextPumps(st, l)[x], f)
    ensures Dialogless(Apply(st.s, SectionOf(st, l)), f)
  {
    var x :| (x == g || x == h) && x in NextPumps(st, l) && HasJoined(NextPumps(st, l)[x], f);
    if HasJoined(st.pumps[g], f) || HasJoined(st.pumps[h], f) {
      StaysDialogless(st, l, g, h, f);
    } else if l.PumpL? && l.g == x {
      JoinsWithNoCallback(st, x, l.pump, f);
    } else {
      PumpMoves(st, l, x);
    }
  }

  lemma SlotStaysWithout(st: State, l: Label, g: Gen, h: Gen, f: Fid)
    requires Passing(st, l, g, h, f) && OwnerIsDone(st, h, f)
    ensures Cycle(st.s, SectionOf(st, l)) != Some(f)
  {
    if Cycle(st.s, SectionOf(st, l)) == Some(f) {
      if l.PumpL? { PumpFillsSlot(st, l.g, l.pump, f); } else { OthersFillNoSlot(st, l); }
    }
  }

  lemma CloseTakesAnother(st: State, l: Label, f: Fid)
    requires st.s.cycle != Some(f) && (st.close.rung == LastRung ==> st.close.taken != Some(f))
    ensures CloseAfter(st, l).rung == LastRung ==> CloseAfter(st, l).taken != Some(f)
  {
  }

  lemma DoneStaysDone(st: State, l: Label, g: Gen, h: Gen, f: Fid)
    requires Passing(st, l, g, h, f) && OwnerIsDone(st, h, f)
    ensures OwnerIsDone(Next(st, l), h, f)
  {
    if !(l.PumpL? && l.g == h) { PumpMoves(st, l, h); }
    StaysWithout(st, l, g, h, f, h);
    SlotStaysWithout(st, l, g, h, f);
    CloseTakesAnother(st, l, f);
  }

  lemma OwnerSteps(st: State, step: PumpStep, g: Gen, h: Gen, f: Fid)
    requires Passing(st, PumpL(h, step), g, h, f) && OwnerSettles(st, h, f)
    ensures OwnerSettles(Next(st, PumpL(h, step)), h, f) || OwnerIsDone(Next(st, PumpL(h, step)), h, f)
  {
    assert PumpSound(st.s, st.pumps[h]);
    OwnerStage(st, step, h, f);
    if st.pumps[h].stage == Clearing {
      OwnerClears(st, step, h, f);
    } else {
      OwnerStaysSettling(st, step, h, f);
    }
  }

  lemma OwnerClears(st: State, step: PumpStep, h: Gen, f: Fid)
    requires Base(st) && Enabled(st, PumpL(h, step)) && OwnerSettles(st, h, f) && st.pumps[h].stage == Clearing
    ensures OwnerIsDone(Next(st, PumpL(h, step)), h, f)
  {
  }

  lemma OwnerStaysSettling(st: State, step: PumpStep, h: Gen, f: Fid)
    requires Base(st) && Enabled(st, PumpL(h, step)) && OwnerSettles(st, h, f)
    requires st.pumps[h].stage != Clearing && st.pumps[h].stage != Dropping
    ensures OwnerSettles(Next(st, PumpL(h, step)), h, f)
  {
    OwnerStage(st, step, h, f);
  }

  lemma OwnerStage(st: State, step: PumpStep, h: Gen, f: Fid)
    requires Enabled(st, PumpL(h, step)) && st.pumps[h].Settling? && st.pumps[h].f == f
    ensures var x := PumpSection(st.s, st.pumps[h], h, step);
            var p := PumpNext(st.s, st.pumps[h], h, step);
            if st.pumps[h].stage == Clearing then p.Reading? && x == Uncycle(f)
            else p.Settling? && p.f == f && (st.pumps[h].stage != Dropping ==> Runtime(st.s, x) == st.s.runtime)
  {
  }

  lemma OwnerGoesOn(st: State, l: Label, g: Gen, h: Gen, f: Fid)
    requires Passing(st, l, g, h, f)
    ensures OwnerSettles(Next(st, l), h, f) || OwnerIsDone(Next(st, l), h, f)
    ensures OwnerSettles(Next(st, l), h, f) ==> OwnerSettles(st, h, f)
  {
    if OwnerIsDone(st, h, f) {
      DoneStaysDone(st, l, g, h, f);
    } else if l.PumpL? && l.g == h {
      OwnerSteps(st, l.pump, g, h, f);
    } else {
      SettlesBeside(st, l, h, f);
    }
  }

  /** While the owner settles, the sampler at work on the run finds it in the slot, or a close under way. */
  lemma SlotHolds(st: State, l: Label, g: Gen, h: Gen, f: Fid)
    requires Passing(st, l, g, h, f) && OwnerSettles(st, h, f) && st.pumps[g] == Work(f)
    requires OwnerSettles(Next(st, l), h, f)
    ensures Cycle(st.s, SectionOf(st, l)) == Some(f) || Apply(st.s, SectionOf(st, l)).closing
  {
    match l {
      case PumpL(x, step) => if st.s.cycle == Some(f) && !st.s.closing { PumpHoldsSlot(st, x, step, f); }
      case _ => if st.s.cycle == Some(f) && !st.s.closing { OthersHoldSlot(st, l, f); }
    }
  }

  lemma PumpHoldsSlot(st: State, x: Gen, step: PumpStep, f: Fid)
    requires Enabled(st, PumpL(x, step)) && st.s.cycle == Some(f)
    ensures Cycle(st.s, PumpSection(st.s, st.pumps[x], x, step)) == Some(f)
            || st.pumps[x] == Settling(f, Clearing) || (st.pumps[x].Reading? && st.s.runtime == Some(x))
  {
  }

  lemma OthersHoldSlot(st: State, l: Label, f: Fid)
    requires Base(st) && Enabled(st, l) && !l.PumpL? && st.s.cycle == Some(f) && !st.s.closing
    ensures Cycle(st.s, SectionOf(st, l)) == Some(f)
  {
  }

  lemma GuardStays(st: State, l: Label, g: Gen, h: Gen, f: Fid)
    requires Passing(st, l, g, h, f)
    ensures Guard(Next(st, l), g, h, f)
  {
    var next := Next(st, l);
    SamplerGoesOn(st, l, g, h, f);
    OwnerGoesOn(st, l, g, h, f);
    if OwnerSettles(next, h, f) && next.pumps[g] == Work(f) { SlotHolds(st, l, g, h, f); }
    if HasJoined(next.pumps[g], f) || HasJoined(next.pumps[h], f) {
      var x := if HasJoined(next.pumps[g], f) then g else h;
      assert (x == g || x == h) && x in NextPumps(st, l) && HasJoined(NextPumps(st, l)[x], f);
      JoinedDialogless(st, l, g, h, f);
    }
    forall x | x in next.pumps && x != g && x != h ensures !Has(next.pumps[x], f) {
      StaysWithout(st, l, g, h, f, x);
    }
  }

  lemma StepKeepsGuarded(st: State, l: Label, g: Gen, h: Gen, f: Fid)
    requires Guarded(st, g, h, f) && Enabled(st, l) && Careful(st, l)
    ensures Guarded(Next(st, l), g, h, f)
  {
    StepKeeps(st, l);
    StepEvolves(st, l);
    assert NotAhead(st.s, f) && Ages(st.s.fg[f], Next(st, l).s.fg[f]);
    if Live(Next(st, l).s, f) {
      LiveBefore(st.s, Next(st, l).s, f);
      GuardStays(st, l, g, h, f);
    }
  }

  lemma {:induction false} RunKeepsGuarded(st: State, ls: seq<Label>, g: Gen, h: Gen, f: Fid)
    requires Guarded(st, g, h, f) && Legal(st, ls) && CarefulRun(st, ls)
    ensures Guarded(Run(st, ls), g, h, f)
    decreases |ls|
  {
    if ls != [] {
      StepKeepsGuarded(st, ls[0], g, h, f);
      RunKeepsGuarded(Next(st, ls[0]), ls[1..], g, h, f);
    }
  }

  lemma GuardedLeavesNone(st: State, g: Gen, h: Gen, f: Fid)
    requires Guarded(st, g, h, f)
    ensures !CanLeaveDialog(st, f)
  {
    forall end, l, cid | Reaches(st, end) && LeavesDialog(end, l, cid, f) ensures false {
      var ls :| Leads(st, ls, end) && CarefulRun(st, ls);
      RunKeepsGuarded(st, ls, g, h, f);
      assert Guard(end, g, h, f);
      NoDialogAtEvent(end, l, f);
    }
  }

  /******* Exactly when *******/

  /** A pump is about to sample a live cycle, and every sample and join so far was careful. */
  ghost predicate AboutToSample(st: State, g: Gen, f: Fid) {
    && Inv(st) && Cycles(st) && Slots(st) && Quieted(st) && Clean(st) && Enabled(st, PumpL(g, Look(true)))
    && st.s.cycle == Some(f) && LiveRun(st.s, f)
  }

  lemma OwnSampleLeavesNone(st: State, g: Gen, work: bool, f: Fid)
    requires AboutToSample(st, g, f) && st.s.runtime == Some(g)
    ensures !CanLeaveDialog(Next(st, PumpL(g, Look(work))), f)
  {
    var l := PumpL(g, Look(work));
    var next := Next(st, l);
    RunKeepsQuiet(st, [l]);
    assert [l][1..] == [] && Run(st, [l]) == next;
    forall end, last, cid | Reaches(next, end) && LeavesDialog(end, last, cid, f) ensures false {
      var ls :| Leads(next, ls, end) && CarefulRun(next, ls);
      CarefulRunIsClean(next, ls);
      RunKeepsQuiet(next, ls);
      RunOnwards(next, ls, f);
      QuietLeavesNone(end, last, cid, f);
    }
  }

  lemma QuietLeavesNone(st: State, l: Label, cid: Cid, f: Fid)
    requires Inv(st) && Cycles(st) && Quieted(st) && f in st.s.fg && st.s.fg[f].kind.Agent?
    ensures !LeavesDialog(st, l, cid, f)
  {
    if LeavesDialog(st, l, cid, f) {
      assert QuietRun(st.s, st.pumps, f);
      PublisherPastJoin(st, l, f);
      assert CallbackOf(st.s.callbacks[cid], f);
    }
  }

  lemma ClosingSampleLeavesNone(st: State, g: Gen, work: bool, f: Fid)
    requires AboutToSample(st, g, f) && st.s.closing
    ensures !CanLeaveDialog(Next(st, PumpL(g, Look(work))), f)
  {
    var next := Next(st, PumpL(g, Look(work)));
    StepKeeps(st, PumpL(g, Look(work)));
    forall x | x in next.pumps && HasJoined(next.pumps[x], f) ensures Dialogless(next.s, f) {
      assert x != g && next.pumps[x] == st.pumps[x];
      JoinedIsQuiet(st, x, f);
    }
    ClosedOffLeavesNone(next, f);
  }

  lemma JoinedIsQuiet(st: State, x: Gen, f: Fid)
    requires Inv(st) && Cycles(st) && Quieted(st) && LiveRun(st.s, f) && x in st.pumps && HasJoined(st.pumps[x], f)
    ensures Dialogless(st.s, f)
  {
    assert PumpClean(st.s, x, st.pumps[x]) && QuietRun(st.s, st.pumps, f);
    forall cid | cid in st.s.callbacks ensures !(st.s.callbacks[cid].Dialog? && st.s.callbacks[cid].f == f) {
      assert NoCallback(st.s, f);
    }
  }

  lemma OthersAreWithout(st: State, x: Gen, f: Fid)
    requires Inv(st) && Cycles(st) && LiveRun(st.s, f) && x in st.pumps && x != GenOf(st.s, f)
    ensures !Has(st.pumps[x], f)
  {
    assert PumpKnows(st.s.fg, x, st.pumps[x]) && PumpClean(st.s, x, st.pumps[x]);
  }

  lemma SettlingOwner(st: State, g: Gen, f: Fid)
    requires AboutToSample(st, g, f) && !st.s.closing && st.s.runtime != Some(g)
    requires PumpOf(st.pumps, GenOf(st.s, f)).Settling?
    ensures OwnerSettles(st, GenOf(st.s, f), f) && GenOf(st.s, f) != g && st.s.turn.None?
  {
    Owner(st, g, f);
    assert PumpKnows(st.s.fg, GenOf(st.s, f), st.pumps[GenOf(st.s, f)]);
  }

  lemma SettlingOwnerGuards(st: State, g: Gen, work: bool, f: Fid)
    requires AboutToSample(st, g, f) && !st.s.closing && st.s.runtime != Some(g)
    requires PumpOf(st.pumps, GenOf(st.s, f)).Settling?
    ensures Guarded(Next(st, PumpL(g, Look(work))), g, GenOf(st.s, f), f)
  {
    var h := GenOf(st.s, f);
    StepKeeps(st, PumpL(g, Look(work)));
    SettlingOwner(st, g, f);
    if HasJoined(st.pumps[h], f) { JoinedIsQuiet(st, h, f); }
    forall x | x in st.pumps && x != h ensures !Has(st.pumps[x], f) { OthersAreWithout(st, x, f); }
    SampleGuards(st, g, work, h, f);
  }

  lemma SampleGuards(st: State, g: Gen, work: bool, h: Gen, f: Fid)
    requires Enabled(st, PumpL(g, Look(work))) && st.s.turn.None? && st.s.cycle == Some(f) && h != g
    requires OwnerSettles(st, h, f) && (HasJoined(st.pumps[h], f) ==> Dialogless(st.s, f))
    requires forall x :: x in st.pumps && x != h ==> !Has(st.pumps[x], f)
    ensures Guard(Next(st, PumpL(g, Look(work))), g, h, f)
  {
  }

  lemma SampleLeavesDialogWhen(st: State, g: Gen, work: bool, f: Fid)
    requires AboutToSample(st, g, f)
    ensures CanLeaveDialog(Next(st, PumpL(g, Look(work))), f) <==>
              !st.s.closing && st.s.runtime != Some(g) && !PumpOf(st.pumps, GenOf(st.s, f)).Settling?
  {
    var next := Next(st, PumpL(g, Look(work)));
    if st.s.closing {
      ClosingSampleLeavesNone(st, g, work, f);
    } else if st.s.runtime == Some(g) {
      OwnSampleLeavesNone(st, g, work, f);
    } else if PumpOf(st.pumps, GenOf(st.s, f)).Settling? {
      SettlingOwnerGuards(st, g, work, f);
      GuardedLeavesNone(next, g, GenOf(st.s, f), f);
    } else {
      Owner(st, g, f);
      ForeignSampleLeavesDialog(next, g, GenOf(st.s, f), f);
    }
  }

  /** After a sample of a live cycle, otherwise careful steps can publish that run's terminal event beside an unresolved
      action of it exactly when no close has begun, the sampler's generation is no longer bound, and the run's owner has
      not begun to settle it. */
  lemma SampleLeavesDialogExactly(ephemeral: bool, ls: seq<Label>, g: Gen, work: bool, f: Fid)
    requires Legal(Init(ephemeral), ls) && Clean(Run(Init(ephemeral), ls))
    requires var st := Run(Init(ephemeral), ls);
             Enabled(st, PumpL(g, Look(work))) && st.s.cycle == Some(f) && LiveRun(st.s, f)
    ensures var st := Run(Init(ephemeral), ls);
            CanLeaveDialog(Next(st, PumpL(g, Look(work))), f) <==>
              !st.s.closing && st.s.runtime != Some(g) && !PumpOf(st.pumps, GenOf(st.s, f)).Settling?
  {
    ReachedQuiet(ephemeral, ls);
    ReachedSlots(ephemeral, ls);
    SampleLeavesDialogWhen(Run(Init(ephemeral), ls), g, work, f);
  }
}
