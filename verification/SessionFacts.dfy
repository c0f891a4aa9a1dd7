/** What no step of a session takes back, and what every reachable state knows about its foregrounds. */
module SessionFacts {
  import opened Options
  import opened SessionState
  import opened SessionMachine

  /******* A critical section ages every run *******/

  /** A run keeps its kind, and every flag and every published event it has. */
  predicate Ages(v: Foreground, w: Foreground) {
    && w.kind == v.kind
    && (v.kind.Agent? || v.accepted ==> w.inc == v.inc)
    && (v.accepted ==> w.accepted)
    && (v.cancelled ==> w.cancelled)
    && (v.settling ==> w.settling)
    && (v.ended != Running ==> w.ended == v.ended)
    && (v.durable ==> w.durable)
    && (v.commitFailed ==> w.commitFailed)
    && (v.claimed.Some? ==> w.claimed.Some?)
    && (v.native.Some? ==> w.native.Some?)
    && (v.verdict.Some? ==> w.verdict.Some?)
    && v.published <= w.published
  }

  ghost predicate RunsAge(fg: map<Fid, Foreground>, fg': map<Fid, Foreground>) {
    forall f :: f in fg ==> f in fg' && Ages(fg[f], fg'[f])
  }

  /** Runs age; incarnations only advance, and a fenced one is never active again. */
  ghost predicate Evolves(s: Shared, t: Shared) {
    && RunsAge(s.fg, t.fg)
    && s.inc <= t.inc
    && (s.inc == t.inc && t.active ==> s.active)
    && (s.closing ==> t.closing)
    && t.ephemeral == s.ephemeral
  }

  /** The section names a new run where it makes one, and accepts only a prompt's. */
  predicate Fits(s: Shared, x: Section) {
    match x
    case Install(f) => f !in s.fg
    case Mint(f, _) => f !in s.fg
    case Accept(f) => Of(s, f).kind.Prompted?
    case _ => true
  }

  lemma AcceptAges(v: Foreground, inc: Option<nat>)
    requires v.kind.Prompted?
    ensures Ages(v, AcceptRun(v, inc))
  {
  }

  lemma VerdictAges(v: Foreground, native: Outcome, ok: bool)
    ensures Ages(v, JudgeRun(v, native)) && Ages(v, CommitRun(v, ok)) && Ages(v, ClaimRun(v))
  {
  }

  lemma MarksAge(v: Foreground, end: Ended, t: Terminal)
    ensures Ages(v, EndRun(v, end)) && Ages(v, v.(settling := true)) && Ages(v, v.(cancelled := true))
    ensures Ages(v, v.(published := v.published + [t]))
  {
  }

  lemma SettlementChangeAges(s: Shared, x: Section)
    requires x.Judge? || x.Commit? || x.Claim? || x.Idle?
    requires Changed(s, x).Some? && Changed(s, x).value.f in s.fg
    ensures Ages(s.fg[Changed(s, x).value.f], Changed(s, x).value.v)
  {
    var c := Changed(s, x).value;
    var v := s.fg[c.f];
    match x {
      case Judge(_, native) => VerdictAges(v, native, true); assert c.v == JudgeRun(v, native);
      case Commit(_, ok) => VerdictAges(v, Failed, s.ephemeral || ok); assert c.v == CommitRun(v, s.ephemeral || ok);
      case Claim(_) => VerdictAges(v, Failed, true); assert c.v == ClaimRun(v);
      case Idle(_, t) => MarksAge(v, Running, t); assert c.v == v.(published := v.published + [t]);
    }
  }

  lemma ChangeAges(s: Shared, x: Section)
    requires Fits(s, x) && Changed(s, x).Some? && Changed(s, x).value.f in s.fg
    ensures Ages(s.fg[Changed(s, x).value.f], Changed(s, x).value.v)
  {
    var c := Changed(s, x).value;
    var v := s.fg[c.f];
    match x {
      case Accept(_) => AcceptAges(v, Current(s)); assert c.v == AcceptRun(v, Current(s));
      case End(_, end) => MarksAge(v, end, Terminal(Failed, Death)); assert c.v == EndRun(v, end);
      case Begin(_) => MarksAge(v, Running, Terminal(Failed, Death)); assert c.v == v.(settling := true);
      case CancelSlot(_) => MarksAge(v, Running, Terminal(Failed, Death)); assert c.v == v.(cancelled := true);
      case StartClose => MarksAge(v, Running, Terminal(Failed, Death)); assert c.v == v.(cancelled := true);
      case Install(_) => assert false;
      case Mint(_, _) => assert false;
      case _ => SettlementChangeAges(s, x);
    }
  }

  lemma SectionEvolves(s: Shared, x: Section)
    requires Fits(s, x)
    ensures Evolves(s, Apply(s, x))
  {
    if Changed(s, x).Some? && Changed(s, x).value.f in s.fg { ChangeAges(s, x); }
    RunsAllAge(s, x);
  }

  lemma RunsAllAge(s: Shared, x: Section)
    requires Changed(s, x).Some? && Changed(s, x).value.f in s.fg ==>
               Ages(s.fg[Changed(s, x).value.f], Changed(s, x).value.v)
    ensures RunsAge(s.fg, Runs(s, x))
  {
  }

  predicate NotAhead(s: Shared, f: Fid) {
    f in s.fg && (s.fg[f].inc.Some? ==> s.fg[f].inc.value <= s.inc)
  }

  /** A run whose events the stream will never publish again. */
  predicate Dead(s: Shared, f: Fid) {
    f in s.fg && !Live(s, f) && (s.fg[f].kind.Agent? || s.fg[f].accepted)
  }

  /******* Slots and kinds *******/

  function HeldTurn(gate: Gate): Option<Fid> {
    match gate
    case Prompting(Installed(f)) => Some(f)
    case Prompting(Ready(f, _)) => Some(f)
    case Prompting(Waiting(f, _)) => Some(f)
    case Prompting(Closure(f, _, _)) => Some(f)
    case Prompting(Unslotting(f)) => Some(f)
    case _ => None
  }

  /** The turn slot is filled exactly while its prompt holds the gate with that turn, and never beside a cycle. */
  predicate SlotsExclude(s: Shared, gate: Gate) {
    && s.turn == HeldTurn(gate)
    && !(s.turn.Some? && s.cycle.Some?)
  }

  predicate IsTurn(fg: map<Fid, Foreground>, f: Option<Fid>) {
    f.Some? ==> f.value in fg && fg[f.value].kind.Prompted?
  }

  predicate IsAgentRun(fg: map<Fid, Foreground>, f: Option<Fid>) {
    f.Some? ==> f.value in fg && fg[f.value].kind.Agent?
  }

  predicate PumpKnows(fg: map<Fid, Foreground>, g: Gen, p: Pump) {
    match p
    case Minted(f) => f in fg && fg[f].kind == Agent(g)
    case Reserved(f) => f in fg && fg[f].kind == Agent(g)
    case Work(f) => f in fg
    case Settling(f, _) => f in fg && fg[f].kind.Agent?
    case Delivering(f) => f in fg && fg[f].kind.Prompted?
    case Ending(c, t, _) => IsAgentRun(fg, c) && IsTurn(fg, t)
    case _ => true
  }

  ghost predicate PumpsKnow(fg: map<Fid, Foreground>, pumps: map<Gen, Pump>) {
    forall g :: g in pumps ==> PumpKnows(fg, g, pumps[g])
  }

  ghost predicate IncsBehind(s: Shared) {
    forall f :: f in s.fg ==> NotAhead(s, f)
  }

  predicate SlotsKnown(s: Shared, taken: Option<Fid>) {
    IsTurn(s.fg, s.turn) && IsAgentRun(s.fg, s.cycle) && IsAgentRun(s.fg, taken)
  }

  /** A close that joins an establishment holds the gate from there to its fence. */
  predicate CloserHolds(c: Close, gate: Gate) {
    gate.Closer? <==> c.joins && (c.rung == SampleRung || c.rung == OwedRung || c.rung == TakeRung || c.rung == LastRung || c.rung == FenceRung)
  }

  ghost predicate Base(st: State) {
    && SlotsExclude(st.s, st.gate)
    && CloserHolds(st.close, st.gate)
    && (st.s.closing <==> st.close.rung != Unclosed)
    && SlotsKnown(st.s, st.close.taken)
    && PumpsKnow(st.s.fg, st.pumps)
    && IncsBehind(st.s)
  }

  lemma InitBase(ephemeral: bool)
    ensures Base(Init(ephemeral))
  {
  }

  lemma PumpFits(st: State, g: Gen, step: PumpStep)
    requires Base(st) && Enabled(st, PumpL(g, step))
    ensures Fits(st.s, PumpSection(st.s, st.pumps[g], g, step))
  {
  }

  lemma PromptFits(st: State, step: PromptStep)
    requires Base(st) && Enabled(st, PromptL(step))
    ensures Fits(st.s, PromptSection(st.s, st.gate, st.launch, step))
  {
  }

  lemma StepFits(st: State, l: Label)
    requires Base(st) && Enabled(st, l)
    ensures Fits(st.s, SectionOf(st, l))
  {
    match l {
      case PumpL(g, step) => PumpFits(st, g, step);
      case PromptL(step) => PromptFits(st, step);
      case _ =>
    }
  }

  lemma StepEvolves(st: State, l: Label)
    requires Base(st) && Enabled(st, l)
    ensures Evolves(st.s, Apply(st.s, SectionOf(st, l)))
  {
    StepFits(st, l);
    SectionEvolves(st.s, SectionOf(st, l));
  }

  /******* Base is kept *******/

  lemma PumpSlots(st: State, g: Gen, step: PumpStep)
    requires Base(st) && Enabled(st, PumpL(g, step))
    ensures var x := PumpSection(st.s, st.pumps[g], g, step);
            Turn(st.s, x) == st.s.turn && (Cycle(st.s, x).Some? ==> st.s.cycle.Some? || st.s.turn.None?)
  {
  }

  lemma PromptSlots(st: State, step: PromptStep)
    requires Base(st) && Enabled(st, PromptL(step))
    ensures var x := PromptSection(st.s, st.gate, st.launch, step);
            && Turn(st.s, x) == HeldTurn(PromptNext(st.s, st.gate, st.launch, step))
            && !(Turn(st.s, x).Some? && Cycle(st.s, x).Some?)
  {
  }

  lemma SlotsStay(st: State, l: Label)
    requires Base(st) && Enabled(st, l)
    ensures SlotsExclude(Apply(st.s, SectionOf(st, l)), NextGate(st, l))
  {
    match l {
      case PumpL(g, step) => PumpSlots(st, g, step);
      case PromptL(step) => PromptSlots(st, step);
      case _ =>
    }
  }

  lemma KnowledgeAges(fg: map<Fid, Foreground>, fg': map<Fid, Foreground>, g: Gen, p: Pump)
    requires RunsAge(fg, fg') && PumpKnows(fg, g, p)
    ensures PumpKnows(fg', g, p)
  {
  }

  lemma PumpStepKnows(st: State, g: Gen, step: PumpStep)
    requires Base(st) && Enabled(st, PumpL(g, step))
    requires RunsAge(st.s.fg, Runs(st.s, PumpSection(st.s, st.pumps[g], g, step)))
    ensures PumpKnows(Runs(st.s, PumpSection(st.s, st.pumps[g], g, step)), g, PumpNext(st.s, st.pumps[g], g, step))
  {
  }

  lemma PumpsStayKnown(st: State, l: Label)
    requires Base(st) && Enabled(st, l)
    ensures PumpsKnow(Runs(st.s, SectionOf(st, l)), NextPumps(st, l))
  {
    StepEvolves(st, l);
    var fg' := Runs(st.s, SectionOf(st, l));
    assert RunsAge(st.s.fg, fg');
    var pumps' := NextPumps(st, l);
    forall g | g in pumps' ensures PumpKnows(fg', g, pumps'[g]) {
      if l.PumpL? && l.g == g {
        PumpStepKnows(st, g, l.pump);
      } else if g in st.pumps && pumps'[g] == st.pumps[g] {
        KnowledgeAges(st.s.fg, fg', g, st.pumps[g]);
      }
    }
  }

  /** A run is given the current incarnation or keeps its own. */
  lemma NewIncBehind(s: Shared, x: Section)
    requires IncsBehind(s) && Changed(s, x).Some?
    ensures var inc := Changed(s, x).value.v.inc; inc.Some? ==> inc.value <= s.inc
  {
  }

  lemma IncsStayBehind(s: Shared, x: Section)
    requires IncsBehind(s)
    ensures IncsBehind(Apply(s, x))
  {
    if Changed(s, x).Some? { NewIncBehind(s, x); }
    var t := Apply(s, x);
    forall f | f in t.fg ensures NotAhead(t, f) {
      if f in s.fg { assert NotAhead(s, f); }
    }
  }

  lemma CloserStays(st: State, l: Label)
    requires Base(st) && Enabled(st, l)
    ensures CloserHolds(if l.CloseL? then CloseNext(st.s, st.close, l.close) else st.close, NextGate(st, l))
  {
  }

  lemma ClosingStays(st: State, l: Label)
    requires Base(st) && Enabled(st, l)
    ensures var c := if l.CloseL? then CloseNext(st.s, st.close, l.close) else st.close;
            Apply(st.s, SectionOf(st, l)).closing <==> c.rung != Unclosed
  {
  }

  lemma SlotsStayKnown(st: State, l: Label)
    requires Base(st) && Enabled(st, l)
    ensures SlotsKnown(Apply(st.s, SectionOf(st, l)),
                       (if l.CloseL? then CloseNext(st.s, st.close, l.close) else st.close).taken)
  {
    StepEvolves(st, l);
    StepFits(st, l);
    var x := SectionOf(st, l);
    assert RunsAge(st.s.fg, Runs(st.s, x));
    ReservesKnown(st, l);
    SlotsSurvive(st.s, x, st.close.taken);
  }

  lemma ReservesKnown(st: State, l: Label)
    requires Base(st) && Enabled(st, l)
    ensures SectionOf(st, l).Reserve? ==> IsAgentRun(st.s.fg, Some(SectionOf(st, l).f))
  {
  }

  lemma SlotsSurvive(s: Shared, x: Section, taken: Option<Fid>)
    requires SlotsKnown(s, taken) && Fits(s, x) && RunsAge(s.fg, Runs(s, x))
    requires x.Reserve? ==> IsAgentRun(s.fg, Some(x.f))
    ensures IsTurn(Runs(s, x), Turn(s, x)) && IsAgentRun(Runs(s, x), Cycle(s, x))
    ensures IsAgentRun(Runs(s, x), taken) && IsAgentRun(Runs(s, x), s.cycle)
  {
  }

  lemma StepKeepsBase(st: State, l: Label)
    requires Base(st) && Enabled(st, l)
    ensures Base(Next(st, l))
  {
    SlotsStay(st, l);
    CloserStays(st, l);
    ClosingStays(st, l);
    PumpsStayKnown(st, l);
    SlotsStayKnown(st, l);
    IncsStayBehind(st.s, SectionOf(st, l));
  }
}
