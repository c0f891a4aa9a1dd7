/**
 Agent runs, in the states reached without a stale sample and without giving up on a pump: one goroutine at a time
 can end a run whose stream is still live, so its terminal event appears at most once.
 */
module SessionCycles {
  import opened Options
  import opened SessionState
  import opened SessionMachine
  import opened SessionFacts
  import opened SessionSettlement
  import opened SessionProcesses

  predicate Clean(st: State) {
    !st.stale && !st.timedOut
  }

  /** The generation that opened the run. */
  function GenOf(s: Shared, f: Fid): Gen {
    if Of(s, f).kind.Agent? then Of(s, f).kind.gen else 0
  }

  predicate LiveRun(s: Shared, f: Fid) {
    Live(s, f) && s.fg[f].kind.Agent?
  }

  /** The pump may yet publish the run's terminal event. */
  predicate MayPublish(p: Pump, f: Fid) {
    || ((p.Minted? || p.Reserved? || p.Work?) && p.f == f)
    || (p.Settling? && p.f == f && p.stage != Clearing)
    || (p.Ending? && p.c == Some(f) && (p.leg == JoinLeg || p.leg == IdleLeg))
  }

  /** A live run is handled by the pump that opened it, and holds the slot unless a close has begun. */
  predicate PumpClean(s: Shared, g: Gen, p: Pump) {
    && ((p.Reserved? || p.Work? || p.Settling?) && LiveRun(s, p.f) ==>
          GenOf(s, p.f) == g && (s.cycle == Some(p.f) || s.closing))
    && (p.Ending? && p.c.Some? && (p.leg == JoinLeg || p.leg == IdleLeg) && LiveRun(s, p.c.value) ==>
          GenOf(s, p.c.value) == g && s.cycle != p.c)
    && (p.Settling? && p.stage != Mark && p.stage != Join && LiveRun(s, p.f) ==> s.callbacks == map[])
  }

  ghost predicate PumpsClean(s: Shared, pumps: map<Gen, Pump>) {
    forall g :: g in pumps ==> PumpClean(s, g, pumps[g])
  }

  /** The generation whose pump may still end the run in the slot. */
  function Responsible(s: Shared, c: Close): Option<Gen> {
    if s.closing then c.rt else s.runtime
  }

  predicate SlotClean(s: Shared, c: Close, pumps: map<Gen, Pump>) {
    s.cycle.Some? && LiveRun(s, s.cycle.value) ==>
      var f := s.cycle.value;
      var p := PumpOf(pumps, GenOf(s, f));
      && Responsible(s, c) == Some(GenOf(s, f))
      && ((p.Reserved? || p.Work? || p.Settling?) && Of(s, p.f).kind.Agent? ==> p.f == f)
      && (p.Ending? || p.Releasing? || p.Done? ==> s.closing)
      && (s.fg[f].published != [] <==> p == Settling(f, Clearing))
  }

  predicate RunClean(s: Shared, pumps: map<Gen, Pump>, f: Fid) {
    Of(s, f).kind.Agent? ==>
      && |Of(s, f).published| <= 1
      && (Live(s, f) && Of(s, f).published != [] ==> !MayPublish(PumpOf(pumps, GenOf(s, f)), f))
  }

  ghost predicate RunsClean(s: Shared, pumps: map<Gen, Pump>) {
    forall f :: f in s.fg ==> RunClean(s, pumps, f)
  }

  predicate Past(c: Close) {
    c.rung == LastRung || c.rung == FenceRung || c.rung == Closed
  }

  predicate CloseClean(s: Shared, c: Close, pumps: map<Gen, Pump>) {
    && (s.closing && s.runtime.Some? ==> c.rt == s.runtime)
    && (c.rung != Unclosed && c.rung != JoinRung && c.rung != StopRung && c.rt.Some? ==> PumpOf(pumps, c.rt.value).Done?)
    && (Past(c) ==> s.cycle.None?)
    && (c.rung == LastRung && c.taken.Some? && LiveRun(s, c.taken.value) ==>
          s.fg[c.taken.value].published == [] && PumpOf(pumps, GenOf(s, c.taken.value)).Done?)
  }

  ghost predicate Cycles(st: State) {
    && PumpsClean(st.s, st.pumps)
    && SlotClean(st.s, st.close, st.pumps)
    && RunsClean(st.s, st.pumps)
    && CloseClean(st.s, st.close, st.pumps)
  }

  lemma InitCycles(ephemeral: bool)
    ensures Cycles(Init(ephemeral))
  {
  }

  /** What a step leaves, piece by piece. */
  function CloseAfter(st: State, l: Label): Close {
    if l.CloseL? then CloseNext(st.s, st.close, l.close) else st.close
  }

  /** The step neither takes a foreground for an unbound generation nor gives up on a pump. */
  predicate Careful(st: State, l: Label) {
    !GivesUp(st, l) && !(l.PumpL? && TakesStale(st.s, l.g, l.pump))
  }

  ghost predicate Stepping(st: State, l: Label) {
    Inv(st) && Cycles(st) && Enabled(st, l) && Careful(st, l)
  }

  /** A step makes no old run live. */
  lemma LiveBefore(s: Shared, t: Shared, f: Fid)
    requires Evolves(s, t) && NotAhead(s, f) && s.fg[f].kind.Agent? && Live(t, f)
    ensures Live(s, f) && t.fg[f].kind == s.fg[f].kind && t.inc == s.inc
  {
  }

  /** A live run leaves the slot, outside a close, only by a step of the pump that opened it. */
  lemma SlotLostToOwn(st: State, l: Label, f: Fid)
    requires Stepping(st, l) && st.s.cycle == Some(f) && LiveRun(st.s, f) && !st.s.closing
    requires Cycle(st.s, SectionOf(st, l)) != Some(f)
    ensures l.PumpL? && l.g == GenOf(st.s, f)
  {
    match l {
      case PumpL(g, step) =>
        assert PumpClean(st.s, g, st.pumps[g]);
        PumpEmptiesSlot(st, g, step, f);
      case CloseL(step) =>
      case _ =>
    }
  }

  lemma PumpEmptiesSlot(st: State, g: Gen, step: PumpStep, f: Fid)
    requires Enabled(st, PumpL(g, step)) && st.s.cycle == Some(f)
    requires Cycle(st.s, PumpSection(st.s, st.pumps[g], g, step)) != Some(f)
    ensures st.pumps[g] == Settling(f, Clearing) || st.s.runtime == Some(g)
  {
  }

  /** A run enters the slot only by a step of the pump that minted it. */
  lemma SlotWonByOwn(st: State, l: Label, f: Fid)
    requires Stepping(st, l) && f in st.s.fg
    requires st.s.cycle != Some(f) && Cycle(st.s, SectionOf(st, l)) == Some(f)
    ensures l.PumpL? && l.g == GenOf(st.s, f) && st.s.fg[f].kind.Agent? && st.pumps[l.g] == Minted(f)
    ensures st.s.cycle.None? && st.s.runtime == Some(l.g) && !st.s.closing
  {
    if l.PumpL? {
      assert PumpKnows(st.s.fg, l.g, st.pumps[l.g]);
      PumpFillsSlot(st, l.g, l.pump, f);
    } else {
      OthersFillNoSlot(st, l);
    }
  }

  lemma PumpFillsSlot(st: State, g: Gen, step: PumpStep, f: Fid)
    requires Enabled(st, PumpL(g, step))
    requires st.s.cycle != Some(f) && Cycle(st.s, PumpSection(st.s, st.pumps[g], g, step)) == Some(f)
    ensures st.pumps[g] == Minted(f) && CanReserve(st.s, g)
  {
  }

  lemma OthersFillNoSlot(st: State, l: Label)
    requires Enabled(st, l) && !l.PumpL?
    ensures Cycle(st.s, SectionOf(st, l)) == st.s.cycle || Cycle(st.s, SectionOf(st, l)).None?
  {
  }

  lemma OtherPumpStaysClean(st: State, l: Label, g: Gen)
    requires Stepping(st, l) && g in st.pumps && !(l.PumpL? && l.g == g)
    ensures PumpClean(Apply(st.s, SectionOf(st, l)), g, st.pumps[g])
  {
    var p := st.pumps[g];
    var t := Apply(st.s, SectionOf(st, l));
    StepEvolves(st, l);
    assert PumpClean(st.s, g, p) && PumpKnows(st.s.fg, g, p) && PumpSound(st.s, p);
    if p.Reserved? || p.Work? || p.Settling? {
      assert NotAhead(st.s, p.f);
      assert Ages(st.s.fg[p.f], t.fg[p.f]);
      if LiveRun(t, p.f) {
        LiveBefore(st.s, t, p.f);
        if !st.s.closing && t.cycle != Some(p.f) { SlotLostToOwn(st, l, p.f); }
        if p.Settling? && p.stage != Mark && p.stage != Join { QuietStays(st, l, p.f); }
      }
    }
    if p.Ending? && p.c.Some? {
      var f := p.c.value;
      assert NotAhead(st.s, f) && Ages(st.s.fg[f], t.fg[f]);
      if LiveRun(t, f) {
        LiveBefore(st.s, t, f);
        if st.s.cycle != p.c && t.cycle == p.c { SlotWonByOwn(st, l, f); }
      }
    }
  }

  lemma QuietStays(st: State, l: Label, f: Fid)
    requires Stepping(st, l) && f in st.s.fg && st.s.fg[f].settling
    requires st.s.cycle == Some(f) || st.s.closing
    requires st.s.callbacks == map[]
    ensures Callbacks(st.s, SectionOf(st, l)) == map[]
  {
  }

  /** The run a pump is at work on after its own step was live before it, if it is old. */
  lemma OwnRunBefore(st: State, g: Gen, step: PumpStep, f: Fid)
    requires Base(st) && Enabled(st, PumpL(g, step)) && f in st.s.fg
    requires LiveRun(Apply(st.s, PumpSection(st.s, st.pumps[g], g, step)), f)
    ensures LiveRun(st.s, f) && GenOf(Apply(st.s, PumpSection(st.s, st.pumps[g], g, step)), f) == GenOf(st.s, f)
  {
    StepEvolves(st, PumpL(g, step));
    assert NotAhead(st.s, f) && Ages(st.s.fg[f], Apply(st.s, PumpSection(st.s, st.pumps[g], g, step)).fg[f]);
    LiveBefore(st.s, Apply(st.s, PumpSection(st.s, st.pumps[g], g, step)), f);
  }

  lemma OwnRunStaysInSlot(st: State, g: Gen, step: PumpStep)
    requires Stepping(st, PumpL(g, step))
    ensures var p := PumpNext(st.s, st.pumps[g], g, step);
            var x := PumpSection(st.s, st.pumps[g], g, step);
            (p.Reserved? || p.Work? || p.Settling?) && p.f in st.s.fg && LiveRun(st.s, p.f) ==>
              GenOf(st.s, p.f) == g && (Cycle(st.s, x) == Some(p.f) || st.s.closing)
  {
  }

  lemma OwnEndingLetsGo(st: State, g: Gen, step: PumpStep)
    requires Stepping(st, PumpL(g, step))
    ensures var p := PumpNext(st.s, st.pumps[g], g, step);
            p.Ending? && p.c.Some? && (p.leg == JoinLeg || p.leg == IdleLeg) && p.c.value in st.s.fg && LiveRun(st.s, p.c.value) ==>
              GenOf(st.s, p.c.value) == g && Cycle(st.s, PumpSection(st.s, st.pumps[g], g, step)) != p.c
  {
    assert PumpClean(st.s, g, st.pumps[g]);
  }

  lemma OwnSettlingQuiet(st: State, g: Gen, step: PumpStep)
    requires Stepping(st, PumpL(g, step))
    ensures var p := PumpNext(st.s, st.pumps[g], g, step);
            p.Settling? && p.stage != Mark && p.stage != Join && p.f in st.s.fg && LiveRun(st.s, p.f) ==>
              Callbacks(st.s, PumpSection(st.s, st.pumps[g], g, step)) == map[]
  {
  }

  lemma HandledOld(st: State, g: Gen, step: PumpStep)
    requires Base(st) && Enabled(st, PumpL(g, step))
    ensures var p := PumpNext(st.s, st.pumps[g], g, step);
            && (p.Reserved? || p.Work? || p.Settling? ==> p.f in st.s.fg)
            && (p.Ending? && p.c.Some? ==> p.c.value in st.s.fg)
  {
  }

  lemma OwnPumpStaysClean(st: State, g: Gen, step: PumpStep)
    requires Stepping(st, PumpL(g, step))
    ensures PumpClean(Apply(st.s, PumpSection(st.s, st.pumps[g], g, step)), g, PumpNext(st.s, st.pumps[g], g, step))
  {
    var p := PumpNext(st.s, st.pumps[g], g, step);
    var t := Apply(st.s, PumpSection(st.s, st.pumps[g], g, step));
    HandledOld(st, g, step);
    OwnRunStaysInSlot(st, g, step);
    OwnEndingLetsGo(st, g, step);
    OwnSettlingQuiet(st, g, step);
    if (p.Reserved? || p.Work? || p.Settling?) && LiveRun(t, p.f) { OwnRunBefore(st, g, step, p.f); }
    if p.Ending? && p.c.Some? && LiveRun(t, p.c.value) { OwnRunBefore(st, g, step, p.c.value); }
  }

  lemma PumpsStayClean(st: State, l: Label)
    requires Stepping(st, l)
    ensures PumpsClean(Apply(st.s, SectionOf(st, l)), NextPumps(st, l))
  {
    forall g | g in NextPumps(st, l)
      ensures PumpClean(Apply(st.s, SectionOf(st, l)), g, NextPumps(st, l)[g]) {
      if l.PumpL? && l.g == g {
        OwnPumpStaysClean(st, g, l.pump);
      } else if g in st.pumps && NextPumps(st, l)[g] == st.pumps[g] {
        OtherPumpStaysClean(st, l, g);
      }
    }
  }

  /******* The slot *******/

  /** A pump moves only by its own steps, or by the bind that starts it. */
  lemma PumpMoves(st: State, l: Label, g: Gen)
    requires Processes(st) && Enabled(st, l) && !(l.PumpL? && l.g == g)
    ensures var p := PumpOf(NextPumps(st, l), g);
            p == PumpOf(st.pumps, g) || (!st.s.closing && p.Reading? && g !in st.pumps)
  {
  }

  lemma DoneStays(st: State, l: Label, g: Gen)
    requires Processes(st) && Enabled(st, l) && PumpOf(st.pumps, g).Done? && st.s.closing
    ensures PumpOf(NextPumps(st, l), g).Done?
  {
  }

  lemma PumpKeepsRuntime(st: State, g: Gen, step: PumpStep, f: Fid)
    requires Stepping(st, PumpL(g, step)) && st.s.cycle == Some(f) && LiveRun(st.s, f) && !st.s.closing
    ensures Runtime(st.s, PumpSection(st.s, st.pumps[g], g, step)) == st.s.runtime
  {
  }

  lemma OthersKeepRuntime(st: State, l: Label, f: Fid)
    requires Stepping(st, l) && !l.PumpL? && st.s.cycle == Some(f) && LiveRun(st.s, f) && !st.s.closing
    ensures Runtime(st.s, SectionOf(st, l)) == st.s.runtime
  {
  }

  /** A close stops the generation that was bound when it began. */
  lemma ClosesBound(st: State, l: Label)
    requires Base(st) && Enabled(st, l)
    ensures st.s.closing ==> CloseAfter(st, l).rt == st.close.rt
    ensures !st.s.closing && SectionOf(st, l).StartClose? ==> CloseAfter(st, l).rt == st.s.runtime
  {
  }

  lemma RuntimeKept(st: State, l: Label, f: Fid)
    requires Stepping(st, l) && st.s.cycle == Some(f) && LiveRun(st.s, f) && !st.s.closing
    ensures Runtime(st.s, SectionOf(st, l)) == st.s.runtime == Some(GenOf(st.s, f))
  {
    if l.PumpL? { PumpKeepsRuntime(st, l.g, l.pump, f); } else { OthersKeepRuntime(st, l, f); }
  }

  /** While a live run holds the slot its generation stays the bound one, or the one a close is stopping. */
  lemma ResponsibleStays(st: State, l: Label, f: Fid)
    requires Stepping(st, l) && st.s.cycle == Some(f) && LiveRun(st.s, f)
    ensures Responsible(Apply(st.s, SectionOf(st, l)), CloseAfter(st, l)) == Some(GenOf(st.s, f))
  {
    ClosesBound(st, l);
    if !st.s.closing { RuntimeKept(st, l, f); }
    ResponsibleOf(st.s, SectionOf(st, l), st.close, CloseAfter(st, l), Some(GenOf(st.s, f)));
  }

  lemma ResponsibleOf(s: Shared, x: Section, c: Close, c': Close, g: Option<Gen>)
    requires Responsible(s, c) == g
    requires s.closing ==> c'.rt == c.rt
    requires !s.closing && x.StartClose? ==> c'.rt == s.runtime
    requires !s.closing ==> Runtime(s, x) == s.runtime
    ensures Responsible(Apply(s, x), c') == g
  {
  }

  lemma SlotPumpStays(st: State, l: Label, f: Fid)
    requires Stepping(st, l) && st.s.cycle == Some(f) && LiveRun(st.s, f)
    requires Cycle(st.s, SectionOf(st, l)) == Some(f)
    ensures var p := PumpOf(NextPumps(st, l), GenOf(st.s, f));
            && ((p.Reserved? || p.Work? || p.Settling?) && Of(st.s, p.f).kind.Agent? ==> p.f == f)
            && (p.Ending? || p.Releasing? || p.Done? ==> st.s.closing)
  {
    if l.PumpL? && l.g == GenOf(st.s, f) {
      assert PumpKnows(st.s.fg, l.g, st.pumps[l.g]);
      OwnSlotPump(st, l.g, l.pump, f);
    } else {
      PumpMoves(st, l, GenOf(st.s, f));
    }
  }

  lemma OwnSlotPump(st: State, g: Gen, step: PumpStep, f: Fid)
    requires Enabled(st, PumpL(g, step)) && PumpKnows(st.s.fg, g, st.pumps[g]) && IsTurn(st.s.fg, st.s.turn)
    requires SlotClean(st.s, st.close, st.pumps) && (st.s.closing <==> st.close.rung != Unclosed)
    requires st.s.cycle == Some(f) && LiveRun(st.s, f) && GenOf(st.s, f) == g
    requires Cycle(st.s, PumpSection(st.s, st.pumps[g], g, step)) == Some(f)
    ensures var p := PumpNext(st.s, st.pumps[g], g, step);
            && ((p.Reserved? || p.Work? || p.Settling?) && Of(st.s, p.f).kind.Agent? ==> p.f == f)
            && (p.Ending? || p.Releasing? || p.Done? ==> st.s.closing)
  {
  }

  /** Who publishes a live agent run: its own pump, as its last act but one, or a close once that pump is done. */
  lemma PublishesOnce(st: State, l: Label, f: Fid)
    requires Stepping(st, l) && f in st.s.fg && LiveRun(st.s, f)
    requires SectionOf(st, l).Idle? && SectionOf(st, l).f == f
    ensures st.s.fg[f].published == []
    ensures var p := PumpOf(NextPumps(st, l), GenOf(st.s, f));
            && !MayPublish(p, f)
            && (st.s.cycle == Some(f) ==> p == Settling(f, Clearing))
  {
    assert RunClean(st.s, st.pumps, f);
    if l.PumpL? { PumpPublishesOnce(st, l.g, l.pump, f); }
  }

  lemma PumpPublishesOnce(st: State, g: Gen, step: PumpStep, f: Fid)
    requires Stepping(st, PumpL(g, step)) && f in st.s.fg && LiveRun(st.s, f)
    requires PumpSection(st.s, st.pumps[g], g, step).Idle? && PumpSection(st.s, st.pumps[g], g, step).f == f
    ensures st.s.fg[f].published == [] && GenOf(st.s, f) == g
    ensures var p := PumpNext(st.s, st.pumps[g], g, step);
            !MayPublish(p, f) && (st.s.cycle == Some(f) ==> p == Settling(f, Clearing))
  {
  }

  /** A pump that is clearing a run's slot goes on to do it. */
  lemma ClearingClears(st: State, l: Label, f: Fid)
    requires Stepping(st, l) && st.s.cycle == Some(f) && PumpOf(st.pumps, GenOf(st.s, f)) == Settling(f, Clearing)
    requires Cycle(st.s, SectionOf(st, l)) == Some(f)
    ensures PumpOf(NextPumps(st, l), GenOf(st.s, f)) == Settling(f, Clearing)
  {
  }

  lemma SlotStaysClean(st: State, l: Label)
    requires Stepping(st, l)
    ensures SlotClean(Apply(st.s, SectionOf(st, l)), CloseAfter(st, l), NextPumps(st, l))
  {
    var x := SectionOf(st, l);
    var t := Apply(st.s, x);
    StepEvolves(st, l);
    SlotsStayKnown(st, l);
    if t.cycle.Some? && LiveRun(t, t.cycle.value) {
      var f := t.cycle.value;
      if st.s.cycle == Some(f) {
        SlotKept(st, l, f);
      } else {
        if l.PumpL? { assert PumpKnows(st.s.fg, l.g, st.pumps[l.g]); }
        assert f in st.s.fg;
        SlotWon(st, l, f);
      }
    }
  }

  lemma SlotKept(st: State, l: Label, f: Fid)
    requires Stepping(st, l) && st.s.cycle == Some(f) && Cycle(st.s, SectionOf(st, l)) == Some(f)
    requires LiveRun(Apply(st.s, SectionOf(st, l)), f)
    ensures SlotClean(Apply(st.s, SectionOf(st, l)), CloseAfter(st, l), NextPumps(st, l))
  {
    var t := Apply(st.s, SectionOf(st, l));
    StepEvolves(st, l);
    assert NotAhead(st.s, f) && Ages(st.s.fg[f], t.fg[f]);
    LiveBefore(st.s, t, f);
    ResponsibleStays(st, l, f);
    SlotPumpStays(st, l, f);
    var p := PumpOf(NextPumps(st, l), GenOf(t, f));
    if (p.Reserved? || p.Work? || p.Settling?) && Of(t, p.f).kind.Agent? { HandledKnown(st, l, GenOf(t, f)); }
    SlotEventKept(st, l, f);
  }

  /** The run in the slot has its event out exactly while its pump is about to clear the slot. */
  lemma SlotEventKept(st: State, l: Label, f: Fid)
    requires Stepping(st, l) && st.s.cycle == Some(f) && Cycle(st.s, SectionOf(st, l)) == Some(f) && LiveRun(st.s, f)
    ensures f in Runs(st.s, SectionOf(st, l))
    ensures Runs(st.s, SectionOf(st, l))[f].published != [] <==>
            PumpOf(NextPumps(st, l), GenOf(st.s, f)) == Settling(f, Clearing)
  {
    var x := SectionOf(st, l);
    if x.Idle? && x.f == f {
      PublishesOnce(st, l, f);
    } else {
      StepFits(st, l);
      PublishedSame(st.s, x, f);
      if st.s.fg[f].published != [] { ClearingClears(st, l, f); } else { ClearsAfterEvent(st, l, f); }
    }
  }

  /** A pump comes to clear a live run's slot by publishing. */
  lemma ClearsAfterEvent(st: State, l: Label, f: Fid)
    requires Stepping(st, l) && LiveRun(st.s, f) && !(SectionOf(st, l).Idle? && SectionOf(st, l).f == f)
    requires PumpOf(st.pumps, GenOf(st.s, f)) != Settling(f, Clearing)
    ensures PumpOf(NextPumps(st, l), GenOf(st.s, f)) != Settling(f, Clearing)
  {
    if !(l.PumpL? && l.g == GenOf(st.s, f)) { PumpMoves(st, l, GenOf(st.s, f)); }
  }

  /** What a pump handles after a step existed before it, with the same kind. */
  lemma HandledKnown(st: State, l: Label, g: Gen)
    requires Base(st) && Enabled(st, l)
    ensures var p := PumpOf(NextPumps(st, l), g);
            p.Reserved? || p.Work? || p.Settling? ==>
              p.f in st.s.fg && Of(Apply(st.s, SectionOf(st, l)), p.f).kind == st.s.fg[p.f].kind
  {
    StepEvolves(st, l);
    var p := PumpOf(NextPumps(st, l), g);
    if p.Reserved? || p.Work? || p.Settling? {
      if l.PumpL? && l.g == g { HandledOld(st, g, l.pump); } else { assert PumpKnows(st.s.fg, g, st.pumps[g]); }
      assert Ages(st.s.fg[p.f], Apply(st.s, SectionOf(st, l)).fg[p.f]);
    }
  }

  lemma SlotWon(st: State, l: Label, f: Fid)
    requires Stepping(st, l) && f in st.s.fg && st.s.cycle != Some(f) && Cycle(st.s, SectionOf(st, l)) == Some(f)
    requires LiveRun(Apply(st.s, SectionOf(st, l)), f)
    ensures SlotClean(Apply(st.s, SectionOf(st, l)), CloseAfter(st, l), NextPumps(st, l))
  {
    SlotWonByOwn(st, l, f);
    assert RunClean(st.s, st.pumps, f) && PumpKnows(st.s.fg, l.g, st.pumps[l.g]);
    assert Runs(st.s, SectionOf(st, l)) == st.s.fg;
  }

  /******* Each run *******/

  lemma NotMayPublishStays(st: State, l: Label, f: Fid)
    requires Stepping(st, l) && f in st.s.fg && LiveRun(st.s, f) && st.s.fg[f].published != []
    ensures !MayPublish(PumpOf(NextPumps(st, l), GenOf(st.s, f)), f)
  {
    assert RunClean(st.s, st.pumps, f);
    if l.PumpL? && l.g == GenOf(st.s, f) { OwnerStaysDone(st, l.g, l.pump, f); } else { PumpMoves(st, l, GenOf(st.s, f)); }
  }

  /** The owner does not take up again a run it has ended. */
  lemma OwnerStaysDone(st: State, g: Gen, step: PumpStep, f: Fid)
    requires Enabled(st, PumpL(g, step)) && IsTurn(st.s.fg, st.s.turn) && SlotClean(st.s, st.close, st.pumps)
    requires LiveRun(st.s, f) && st.s.fg[f].published != [] && g == GenOf(st.s, f) && !MayPublish(st.pumps[g], f)
    ensures !MayPublish(PumpNext(st.s, st.pumps[g], g, step), f)
  {
  }

  lemma OldRunStaysClean(st: State, l: Label, f: Fid)
    requires Stepping(st, l) && f in st.s.fg && st.s.fg[f].kind.Agent?
    requires Fits(st.s, SectionOf(st, l)) && Evolves(st.s, Apply(st.s, SectionOf(st, l)))
    ensures RunClean(Apply(st.s, SectionOf(st, l)), NextPumps(st, l), f)
  {
    var x := SectionOf(st, l);
    var t := Apply(st.s, x);
    assert RunClean(st.s, st.pumps, f) && NotAhead(st.s, f) && Ages(st.s.fg[f], t.fg[f]);
    if Live(t, f) { LiveBefore(st.s, t, f); }
    if x.Idle? && x.f == f && Live(st.s, f) {
      PublishesOnce(st, l, f);
    } else {
      PublishedSame(st.s, x, f);
      if Live(t, f) && t.fg[f].published != [] { NotMayPublishStays(st, l, f); }
    }
  }

  lemma RunStaysClean(st: State, l: Label, f: Fid)
    requires Stepping(st, l) && f in Runs(st.s, SectionOf(st, l))
    requires Fits(st.s, SectionOf(st, l)) && Evolves(st.s, Apply(st.s, SectionOf(st, l)))
    ensures RunClean(Apply(st.s, SectionOf(st, l)), NextPumps(st, l), f)
  {
    if f !in st.s.fg {
      NewRunsSilent(st.s, SectionOf(st, l), f);
    } else if st.s.fg[f].kind.Agent? {
      OldRunStaysClean(st, l, f);
    } else {
      assert Ages(st.s.fg[f], Apply(st.s, SectionOf(st, l)).fg[f]);
    }
  }

  lemma PublishedSame(s: Shared, x: Section, f: Fid)
    requires f in s.fg && Fits(s, x) && !(x.Idle? && x.f == f && Live(s, f))
    ensures f in Runs(s, x) && Runs(s, x)[f].published == s.fg[f].published
  {
  }

  lemma NewRunsSilent(s: Shared, x: Section, f: Fid)
    requires f !in s.fg && f in Runs(s, x)
    ensures Of(s, f).published == []
    ensures Changed(s, x) == Some(Change(f, Runs(s, x)[f])) && Runs(s, x)[f].published == []
  {
  }

  /******* The close *******/

  lemma StopsBound(st: State, l: Label)
    requires Stepping(st, l)
    ensures st.s.closing || CloseAfter(st, l).rung == JoinRung ==>
              Runtime(st.s, SectionOf(st, l)).Some? ==> CloseAfter(st, l).rt == Runtime(st.s, SectionOf(st, l))
    ensures st.s.closing ==> CloseAfter(st, l).rt == st.close.rt
  {
    if l.CloseL? { CloseStopsBound(st, l.close); } else if st.s.closing { ClosingBindsNone(st, l); }
  }

  lemma CloseStopsBound(st: State, step: CloseStep)
    requires Enabled(st, CloseL(step)) && CloseClean(st.s, st.close, st.pumps) && (st.s.closing <==> st.close.rung != Unclosed)
    ensures var runtime := Runtime(st.s, CloseSection(st.close, step)); runtime.Some? ==> CloseNext(st.s, st.close, step).rt == runtime
    ensures st.s.closing ==> CloseNext(st.s, st.close, step).rt == st.close.rt
  {
  }

  lemma ClosingBindsNone(st: State, l: Label)
    requires Enabled(st, l) && st.s.closing && !l.CloseL?
    ensures var runtime := Runtime(st.s, SectionOf(st, l)); runtime == st.s.runtime || runtime.None?
  {
  }

  lemma StoppedStaysDone(st: State, l: Label)
    requires Stepping(st, l)
    ensures var c := CloseAfter(st, l);
            c.rung != Unclosed && c.rung != JoinRung && c.rung != StopRung && c.rt.Some? ==>
              PumpOf(NextPumps(st, l), c.rt.value).Done?
  {
    var c := CloseAfter(st, l);
    if c.rt.Some? && st.s.closing && PumpOf(st.pumps, c.rt.value).Done? { DoneStays(st, l, c.rt.value); }
  }

  lemma PastIsEmpty(st: State, l: Label)
    requires Stepping(st, l)
    ensures Past(CloseAfter(st, l)) ==> Cycle(st.s, SectionOf(st, l)).None?
  {
    if l.CloseL? && Past(CloseAfter(st, l)) { CloseEmpties(st, l.close); } else if Past(st.close) { ClosingFillsNoSlot(st, l); }
  }

  lemma CloseEmpties(st: State, step: CloseStep)
    requires Enabled(st, CloseL(step)) && (Past(st.close) ==> st.s.cycle.None?) && Past(CloseNext(st.s, st.close, step))
    ensures Cycle(st.s, CloseSection(st.close, step)).None?
  {
  }

  lemma ClosingFillsNoSlot(st: State, l: Label)
    requires Enabled(st, l) && st.s.closing && st.s.cycle.None?
    ensures Cycle(st.s, SectionOf(st, l)).None?
  {
  }

  lemma TakenSilent(st: State, l: Label)
    requires Stepping(st, l)
    ensures var c := CloseAfter(st, l);
            c.rung == LastRung && c.taken.Some? && LiveRun(st.s, c.taken.value) ==>
              && st.s.fg[c.taken.value].published == []
              && PumpOf(NextPumps(st, l), GenOf(st.s, c.taken.value)).Done?
  {
    var c := CloseAfter(st, l);
    if c.rung == LastRung && c.taken.Some? && LiveRun(st.s, c.taken.value) {
      assert st.s.closing && PumpOf(st.pumps, GenOf(st.s, c.taken.value)).Done?;
      DoneStays(st, l, GenOf(st.s, c.taken.value));
    }
  }

  lemma CloseStaysClean(st: State, l: Label)
    requires Stepping(st, l)
    ensures CloseClean(Apply(st.s, SectionOf(st, l)), CloseAfter(st, l), NextPumps(st, l))
  {
    StopsBound(st, l);
    StoppedStaysDone(st, l);
    PastIsEmpty(st, l);
    TakenSilent(st, l);
    TakenStaysSilent(st, l);
    ClosingStays(st, l);
  }

  lemma TakenStaysSilent(st: State, l: Label)
    requires Stepping(st, l)
    ensures var c := CloseAfter(st, l);
            var t := Apply(st.s, SectionOf(st, l));
            c.rung == LastRung && c.taken.Some? && LiveRun(t, c.taken.value) ==>
              && LiveRun(st.s, c.taken.value) && GenOf(t, c.taken.value) == GenOf(st.s, c.taken.value)
              && t.fg[c.taken.value].published == st.s.fg[c.taken.value].published
  {
    var c := CloseAfter(st, l);
    var t := Apply(st.s, SectionOf(st, l));
    if c.rung == LastRung && c.taken.Some? && LiveRun(t, c.taken.value) {
      StepEvolves(st, l);
      StepFits(st, l);
      var f := c.taken.value;
      assert NotAhead(st.s, f) && Ages(st.s.fg[f], t.fg[f]);
      LiveBefore(st.s, t, f);
      TakenSilent(st, l);
      if SectionOf(st, l).Idle? && SectionOf(st, l).f == f { PublishesOnce(st, l, f); TakenNotPublished(st, l, f); }
      PublishedSame(st.s, SectionOf(st, l), f);
    }
  }

  lemma TakenNotPublished(st: State, l: Label, f: Fid)
    requires Stepping(st, l) && CloseAfter(st, l).rung == LastRung && CloseAfter(st, l).taken == Some(f) && LiveRun(st.s, f)
    ensures !(SectionOf(st, l).Idle? && SectionOf(st, l).f == f)
  {
  }

  lemma StepKeepsCycles(st: State, l: Label)
    requires Stepping(st, l)
    ensures Cycles(Next(st, l))
  {
    StepFits(st, l);
    StepEvolves(st, l);
    PumpsStayClean(st, l);
    SlotStaysClean(st, l);
    CloseStaysClean(st, l);
    forall f | f in Runs(st.s, SectionOf(st, l)) ensures RunClean(Apply(st.s, SectionOf(st, l)), NextPumps(st, l), f) {
      RunStaysClean(st, l, f);
    }
  }

  lemma {:induction false} RunKeepsCycles(st: State, ls: seq<Label>)
    requires Inv(st) && Cycles(st) && Legal(st, ls) && Clean(Run(st, ls))
    ensures Cycles(Run(st, ls))
    decreases |ls|
  {
    if ls != [] {
      StaysClean(st, ls);
      StepKeeps(st, ls[0]);
      StepKeepsCycles(st, ls[0]);
      RunKeepsCycles(Next(st, ls[0]), ls[1..]);
    }
  }

  /** A run that ends clean was careful throughout. */
  lemma {:induction false} StaysClean(st: State, ls: seq<Label>)
    requires Legal(st, ls) && Clean(Run(st, ls))
    ensures Clean(st) && (ls != [] ==> Careful(st, ls[0]))
    decreases |ls|
  {
    if ls != [] { StaysClean(Next(st, ls[0]), ls[1..]); }
  }
}
