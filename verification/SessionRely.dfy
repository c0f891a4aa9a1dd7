/**
 What a goroutine of the session may rely on between two of its locked regions: relations that every step the others
 can take keeps, from any state its own step can have left. The methods of SessionObject are composed over them.
 */
module SessionRely {
  import opened Options
  import opened SessionState
  import opened SessionMachine
  import opened SessionFacts
  import opened SessionSettlement
  import opened SessionProcesses
  import opened SessionCycles

  /** Runs age, incarnations only advance, and a close keeps out what it has joined and taken. */
  ghost predicate Rely(s: Shared, t: Shared) {
    && Evolves(s, t)
    && (s.persisted ==> t.persisted)
    && (s.closing && s.callbacks == map[] ==> t.callbacks == map[])
    && (s.closing && s.cycle.None? ==> t.cycle.None?)
  }

  /** Rely, and a generation that has been unbound stays so. */
  ghost predicate RelyGone(s: Shared, t: Shared, g: Gen) {
    Rely(s, t) && (s.runtime != Some(g) ==> t.runtime != Some(g))
  }

  /** What the holder of openMu relies on: the opening stays its own. */
  ghost predicate RelyOpening(s: Shared, t: Shared, g: Gen) {
    RelyGone(s, t, g) && t.opener == s.opener
  }

  /** What the prompt that holds the gate relies on: its turn stays in the slot and is settled by it alone. */
  ghost predicate RelyTurn(s: Shared, t: Shared, f: Fid, g: Gen) {
    && RelyGone(s, t, g)
    && t.turn == Some(f) && f in s.fg && NotAhead(t, f) && Spares(s.fg[f], t.fg[f])
    && (s.fg[f].settling && s.callbacks == map[] ==> t.callbacks == map[])
  }

  /** What a pump relies on for the live run it settles. */
  ghost predicate RelyRun(s: Shared, t: Shared, f: Fid, g: Gen) {
    && RelyGone(s, t, g)
    && (Live(t, f) ==> f in s.fg && Spares(s.fg[f], t.fg[f]) && (s.fg[f].settling && s.callbacks == map[] ==> t.callbacks == map[]))
  }

  /** How often a close has ended the run. */
  function Closings(published: seq<Terminal>): nat {
    if published == [] then 0
    else Closings(published[..|published| - 1]) + if published[|published| - 1].via.Closing? then 1 else 0
  }

  /** What a close relies on: nobody else ends a run in its name. */
  ghost predicate NoneClosed(s: Shared, t: Shared) {
    forall f :: Closings(Of(t, f).published) == Closings(Of(s, f).published)
  }

  lemma EvolvesOn(s: Shared, t: Shared, u: Shared)
    requires Evolves(s, t) && Evolves(t, u)
    ensures Evolves(s, u)
  {
    forall f | f in s.fg ensures f in u.fg && Ages(s.fg[f], u.fg[f]) {
      assert Ages(s.fg[f], t.fg[f]) && Ages(t.fg[f], u.fg[f]);
    }
  }

  /** Any number of other steps may come between two regions. */
  lemma RelyOn(s: Shared, t: Shared, u: Shared, f: Fid, g: Gen)
    requires IncsBehind(s)
    ensures RelyGone(s, t, g) && RelyGone(t, u, g) ==> RelyGone(s, u, g)
    ensures RelyTurn(s, t, f, g) && RelyTurn(t, u, f, g) ==> RelyTurn(s, u, f, g)
    ensures f in s.fg && s.fg[f].kind.Agent? && RelyRun(s, t, f, g) && RelyRun(t, u, f, g) ==> RelyRun(s, u, f, g)
  {
    if RelyGone(s, t, g) && RelyGone(t, u, g) {
      EvolvesOn(s, t, u);
      if f in s.fg && s.fg[f].kind.Agent? { LiveEarlier(s, t, u, f); }
    }
  }

  lemma LiveEarlier(s: Shared, t: Shared, u: Shared, f: Fid)
    requires Evolves(s, t) && Evolves(t, u) && NotAhead(s, f) && s.fg[f].kind.Agent?
    ensures (Live(u, f) ==> Live(t, f)) && (Live(t, f) ==> Live(s, f))
    ensures f in t.fg && f in u.fg && (s.fg[f].settling ==> t.fg[f].settling)
  {
    assert Ages(s.fg[f], t.fg[f]);
    assert Ages(t.fg[f], u.fg[f]);
  }

  lemma ClosingAdmitsNone(s: Shared, x: Section)
    requires s.closing
    ensures s.callbacks == map[] ==> Callbacks(s, x) == map[]
    ensures s.cycle.None? ==> Cycle(s, x).None?
  {
  }

  /** Every step of every goroutine can be relied on so. */
  lemma StepRelies(st: State, l: Label)
    requires Inv(st) && Enabled(st, l)
    ensures Rely(st.s, Next(st, l).s)
  {
    StepEvolves(st, l);
    if st.s.closing { ClosingAdmitsNone(st.s, SectionOf(st, l)); }
  }

  lemma ClosingsSnoc(published: seq<Terminal>, t: Terminal)
    ensures Closings(published + [t]) == Closings(published) + if t.via.Closing? then 1 else 0
  {
    assert (published + [t])[..|published + [t]| - 1] == published;
  }

  /** Only the close ladder ends runs in the name of a close. */
  lemma StepClosesNone(st: State, l: Label)
    requires Inv(st) && Enabled(st, l) && !l.CloseL?
    ensures NoneClosed(st.s, Next(st, l).s)
  {
    StepFits(st, l);
    forall f ensures Closings(Of(Next(st, l).s, f).published) == Closings(Of(st.s, f).published) {
      SectionClosesNone(st, l, f);
    }
  }

  lemma SectionClosesNone(st: State, l: Label, f: Fid)
    requires Inv(st) && Enabled(st, l) && !l.CloseL? && Fits(st.s, SectionOf(st, l))
    ensures Closings(Of(Apply(st.s, SectionOf(st, l)), f).published) == Closings(Of(st.s, f).published)
  {
    var x := SectionOf(st, l);
    if f in st.s.fg {
      if x.Idle? && x.f == f && Live(st.s, f) {
        ClosingsSnoc(st.s.fg[f].published, x.t);
        NoneInItsName(st, l);
      } else {
        PublishedSame(st.s, x, f);
      }
    } else {
      NewRunUnpublished(st.s, x, f);
    }
  }

  lemma NewRunUnpublished(s: Shared, x: Section, f: Fid)
    requires f !in s.fg
    ensures Of(Apply(s, x), f).published == []
  {
  }

  lemma NoneInItsName(st: State, l: Label)
    requires Enabled(st, l) && !l.CloseL? && SectionOf(st, l).Idle?
    ensures !SectionOf(st, l).t.via.Closing?
  {
  }

  lemma BindsFresh(st: State, l: Label, g: Gen)
    requires Inv(st) && Enabled(st, l) && st.s.runtime != Some(g) && (g in st.pumps || !l.LaunchL?)
    ensures Runtime(st.s, SectionOf(st, l)) != Some(g)
  {
  }

  /** A generation that has a pump, once unbound, is never bound again. */
  lemma StepReliesGone(st: State, l: Label, g: Gen)
    requires Inv(st) && Enabled(st, l) && g in st.pumps
    ensures RelyGone(st.s, Next(st, l).s, g) && g in Next(st, l).pumps
  {
    StepRelies(st, l);
    if st.s.runtime != Some(g) { BindsFresh(st, l, g); }
  }

  /** Nobody else opens, or ends an opening, while one is under way. */
  lemma StepReliesOpening(st: State, l: Label, g: Gen)
    requires Inv(st) && Enabled(st, l) && !l.OpenDone? && st.s.opener.Some? && g in st.pumps
    ensures RelyOpening(st.s, Next(st, l).s, g)
  {
    StepReliesGone(st, l, g);
    OpeningKept(st, l);
  }

  lemma OpeningKept(st: State, l: Label)
    requires Enabled(st, l) && !l.OpenDone? && st.s.opener.Some?
    ensures Opener(st.s, SectionOf(st, l)) == st.s.opener
  {
  }

  /** The prompt's turn is its own while it holds the gate, whoever else steps; a launch is the gate holder's. */
  lemma StepReliesTurn(st: State, l: Label, f: Fid, g: Gen)
    requires Inv(st) && Enabled(st, l) && !l.PromptL? && !l.LaunchL? && HeldTurn(st.gate) == Some(f)
    ensures RelyTurn(st.s, Next(st, l).s, f, g)
  {
    StepRelies(st, l);
    if st.s.runtime != Some(g) { BindsFresh(st, l, g); }
    StepKeepsBase(st, l);
    assert NotAhead(Next(st, l).s, f) by { assert f in Next(st, l).s.fg; }
    GateKept(st, l);
    TurnSpared(st, l);
    assert Ages(st.s.fg[f], Next(st, l).s.fg[f]);
    if st.s.fg[f].settling && st.s.callbacks == map[] { NothingAdmitted(st.s, SectionOf(st, l)); }
  }

  lemma GateKept(st: State, l: Label)
    requires Base(st) && Enabled(st, l) && !l.PromptL? && st.gate.Prompting?
    ensures NextGate(st, l) == st.gate
  {
  }

  /** A live run is its pump's own while it settles it, given careful samples and completed joins. */
  lemma StepReliesRun(st: State, l: Label, f: Fid, g: Gen)
    requires Stepping(st, l) && g in st.pumps && st.pumps[g].Settling? && st.pumps[g].f == f && !(l.PumpL? && l.g == g)
    ensures RelyRun(st.s, Next(st, l).s, f, g)
  {
    var t := Next(st, l).s;
    StepReliesGone(st, l, g);
    assert PumpKnows(st.s.fg, g, st.pumps[g]) && PumpClean(st.s, g, st.pumps[g]);
    if Live(t, f) {
      assert NotAhead(st.s, f) && Ages(st.s.fg[f], t.fg[f]);
      LiveBefore(st.s, t, f);
      OthersLeaveRun(st, l, f, g);
      OthersSpare(st.s, SectionOf(st, l), f);
      if st.s.fg[f].settling && st.s.callbacks == map[] { QuietStays(st, l, f); }
    }
  }

  lemma OthersLeaveRun(st: State, l: Label, f: Fid, g: Gen)
    requires Stepping(st, l) && g in st.pumps && st.pumps[g].Settling? && st.pumps[g].f == f && !(l.PumpL? && l.g == g)
    requires LiveRun(st.s, f)
    ensures !Settles(SectionOf(st, l), f)
  {
    assert PumpClean(st.s, g, st.pumps[g]);
    if l.PumpL? {
      assert PumpClean(st.s, l.g, st.pumps[l.g]) && PumpKnows(st.s.fg, l.g, st.pumps[l.g]);
      PumpLeavesRun(st, l.g, l.pump, f);
    } else {
      OthersLeaveAgents(st, l, f);
    }
  }

  lemma PumpLeavesRun(st: State, g: Gen, step: PumpStep, f: Fid)
    requires Base(st) && Enabled(st, PumpL(g, step)) && PumpClean(st.s, g, st.pumps[g]) && LiveRun(st.s, f) && GenOf(st.s, f) != g
    ensures !Settles(PumpSection(st.s, st.pumps[g], g, step), f)
  {
  }

  /** Only a close publishes an agent run from outside its pump, and only once that pump has finished. */
  lemma OthersLeaveAgents(st: State, l: Label, f: Fid)
    requires Stepping(st, l) && !l.PumpL? && LiveRun(st.s, f) && !PumpOf(st.pumps, GenOf(st.s, f)).Done?
    ensures !Settles(SectionOf(st, l), f)
  {
    match l {
      case CloseL(step) => CloseLeavesRun(st, step, f);
      case PromptL(step) => PromptLeavesAgents(st, step, f);
      case _ =>
    }
  }

  lemma CloseLeavesRun(st: State, step: CloseStep, f: Fid)
    requires CloseClean(st.s, st.close, st.pumps) && Enabled(st, CloseL(step))
    requires LiveRun(st.s, f) && !PumpOf(st.pumps, GenOf(st.s, f)).Done?
    ensures !Settles(CloseSection(st.close, step), f)
  {
  }

  lemma PromptLeavesAgents(st: State, step: PromptStep, f: Fid)
    requires Base(st) && Enabled(st, PromptL(step)) && f in st.s.fg && st.s.fg[f].kind.Agent?
    ensures !Settles(PromptSection(st.s, st.gate, st.launch, step), f)
  {
  }
}
