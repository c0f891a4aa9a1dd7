/**
 How runs are settled: what a verdict is made of, and what stands behind every terminal event. These facts hold in
 every reachable state, whatever waits time out.
 */
module SessionSettlement {
  import opened Options
  import opened SessionState
  import opened SessionMachine
  import opened SessionFacts

  /******* One run *******/

  /** The outcome a prompt's settlement decides, from what it met on the way. */
  function Decided(v: Foreground): Outcome {
    if v.commitFailed then Failed
    else if v.claimed == Some(true) then Cancelled
    else if v.ended == TransportEnded || v.native.None? then Failed
    else v.native.value
  }

  predicate PromptVerdict(v: Foreground) {
    && (v.native.Some? ==> v.ended != Running && v.verdict.Some?)
    && (v.claimed.Some? ==> v.native.Some? && v.verdict == Some(Decided(v)))
    && (v.native.Some? && v.claimed.None? ==>
          || v.verdict == Some(Decided(v))
          || (v.cancelled && !v.commitFailed && v.verdict == Some(Cancelled)))
  }

  predicate AgentVerdict(v: Foreground) {
    && (v.native.Some? ==> v.verdict == v.native || (v.cancelled && v.verdict == Some(Cancelled)))
    && (v.claimed.Some? ==> v.native.Some? && v.claimed == Some(v.cancelled) && (v.cancelled ==> v.verdict == Some(Cancelled)))
  }

  /** A prompt publishes once, after its commit, what its settlement decided. */
  predicate PromptPublished(v: Foreground) {
    v.published != [] ==>
      && v.durable && !v.commitFailed && v.ended == Settled && v.claimed.Some?
      && v.published == [Terminal(Decided(v), Settlement)]
  }

  predicate TerminalBacked(v: Foreground, c: Close, t: Terminal) {
    match t.via
    case Settlement => v.durable && v.claimed.Some? && (v.cancelled ==> t.outcome == Cancelled)
    case Death => t.outcome == Failed
    case Closing =>
      && (c.rung == FenceRung || c.rung == Closed)
      && t.outcome == Cancelled
      && (c.persisted ==> c.committed == Some(true))
  }

  ghost predicate AgentPublished(v: Foreground, c: Close) {
    forall t :: t in v.published ==> TerminalBacked(v, c, t)
  }

  ghost predicate RunSound(v: Foreground, c: Close) {
    if v.kind.Prompted? then PromptVerdict(v) && PromptPublished(v) else AgentVerdict(v) && AgentPublished(v, c)
  }

  ghost predicate RunsSound(fg: map<Fid, Foreground>, c: Close) {
    forall f :: f in fg ==> RunSound(fg[f], c)
  }

  /** A close that found the session persisted has committed what it owed before it takes the cycle. */
  predicate CloseSound(c: Close) {
    && (c.persisted && (c.rung == TakeRung || c.rung == LastRung || c.rung == FenceRung || c.rung == Closed) ==> c.committed.Some?)
    && (c.rung == OwedRung ==> c.persisted)
    && (c.committed.Some? ==> c.persisted && (c.rung == TakeRung || c.rung == LastRung || c.rung == FenceRung || c.rung == Closed))
  }

  /******* Who is settling *******/

  predicate Unsettled(v: Foreground) {
    v.native.None? && v.claimed.None? && !v.commitFailed && v.published == []
  }

  /** The two ways to the claim: nothing terminal can appear any more, or the commit has succeeded. */
  predicate MayClaim(s: Shared, f: Fid) {
    var v := Of(s, f);
    Dead(s, f) || (v.durable && v.ended == Settled && !v.commitFailed)
  }

  predicate ClosureSound(s: Shared, f: Fid, stage: Stage) {
    var v := Of(s, f);
    && v.accepted && v.ended != Running && v.published == []
    && (stage != Mark ==> v.settling)
    && match stage
       case Mark => Unsettled(v)
       case Join => Unsettled(v)
       case Judging => Unsettled(v)
       case Committing => v.native.Some? && v.claimed.None? && v.ended == Settled && !v.commitFailed
       case Fencing => v.native.Some? && v.claimed.None?
       case Dropping => v.native.Some? && v.claimed.None? && Dead(s, f)
       case Claiming => v.native.Some? && v.claimed.None? && MayClaim(s, f)
       case Publishing => v.claimed.Some? && MayClaim(s, f)
       case Clearing => false
  }

  predicate PromptSound(s: Shared, gate: Gate) {
    match gate
    case Prompting(Installed(f)) => Unsettled(Of(s, f)) && !Of(s, f).settling
    case Prompting(Ready(f, _)) => Unsettled(Of(s, f)) && !Of(s, f).settling
    case Prompting(Waiting(f, _)) => Unsettled(Of(s, f)) && Of(s, f).accepted && !Of(s, f).settling
    case Prompting(Closure(f, _, stage)) => ClosureSound(s, f, stage)
    case _ => true
  }

  predicate SettlingSound(s: Shared, f: Fid, stage: Stage) {
    var v := Of(s, f);
    && (stage != Mark ==> v.settling)
    && (stage != Mark && stage != Join && stage != Judging ==> v.native.Some?)
    && (stage == Publishing || stage == Clearing ==> v.claimed.Some?)
    && (stage == Dropping ==> Dead(s, f))
    && (stage == Claiming || stage == Publishing || stage == Clearing ==> v.durable || Dead(s, f))
  }

  predicate PumpSound(s: Shared, p: Pump) {
    p.Settling? ==> SettlingSound(s, p.f, p.stage)
  }

  ghost predicate PumpsSound(s: Shared, pumps: map<Gen, Pump>) {
    forall g :: g in pumps ==> PumpSound(s, pumps[g])
  }

  ghost predicate Settlements(st: State) {
    && RunsSound(st.s.fg, st.close)
    && CloseSound(st.close)
    && PromptSound(st.s, st.gate)
    && PumpsSound(st.s, st.pumps)
  }

  lemma InitSettlements(ephemeral: bool)
    ensures Settlements(Init(ephemeral))
  {
  }

  /******* Each section keeps each run sound *******/

  /** What the code has established where it runs a settlement section. */
  predicate Ready(s: Shared, x: Section) {
    match x
    case Judge(f, _) => Of(s, f).kind.Prompted? ==> Unsettled(Of(s, f)) && Of(s, f).ended != Running
    case Commit(f, _) => Of(s, f).kind.Prompted? ==> Of(s, f).native.Some? && Of(s, f).claimed.None? && Of(s, f).published == []
    case Claim(f) => Of(s, f).native.Some? && (Of(s, f).kind.Prompted? ==> Of(s, f).claimed.None? && Of(s, f).published == [])
    case _ => true
  }

  lemma JudgeSound(v: Foreground, native: Outcome, c: Close)
    requires RunSound(v, c) && (v.kind.Prompted? ==> Unsettled(v) && v.ended != Running)
    ensures RunSound(JudgeRun(v, native), c)
  {
  }

  lemma CommitSound(v: Foreground, ok: bool, c: Close)
    requires RunSound(v, c)
    requires v.kind.Prompted? ==> v.native.Some? && v.claimed.None? && v.published == [] && (ok || !v.commitFailed)
    ensures RunSound(CommitRun(v, ok), c)
  {
  }

  lemma ClaimSound(v: Foreground, c: Close)
    requires RunSound(v, c) && v.native.Some? && (v.kind.Prompted? ==> v.claimed.None? && v.published == [])
    ensures RunSound(ClaimRun(v), c)
  {
  }

  lemma MarkSound(v: Foreground, inc: Option<nat>, end: Ended, c: Close)
    requires RunSound(v, c)
    ensures RunSound(AcceptRun(v, inc), c) && RunSound(v.(settling := true), c)
    ensures v.kind.Prompted? ==> RunSound(EndRun(v, end), c)
    ensures v.claimed.None? || v.kind.Prompted? ==> RunSound(v.(cancelled := true), c)
  {
    assert AcceptRun(v, inc).published == v.published;
    assert EndRun(v, end).published == v.published;
  }

  /** A terminal event of an agent run, published with something behind it. */
  lemma PublishAgentSound(v: Foreground, t: Terminal, c: Close)
    requires v.kind.Agent? && RunSound(v, c) && TerminalBacked(v, c, t)
    ensures RunSound(v.(published := v.published + [t]), c)
  {
  }

  lemma PublishPromptSound(v: Foreground, t: Terminal, c: Close)
    requires v.kind.Prompted? && RunSound(v, c) && v.published == [] && v.claimed.Some?
    requires v.durable && !v.commitFailed && v.ended == Settled && t == Terminal(v.verdict.value, Settlement)
    ensures RunSound(v.(published := v.published + [t]), c)
  {
  }

  ghost predicate ChangeSound(s: Shared, x: Section, c: Close) {
    Changed(s, x).Some? ==> RunSound(Changed(s, x).value.v, c)
  }

  /** The sections of settlement proper, on a known run. */
  lemma StageChange(s: Shared, f: Fid, g: Gen, stage: Stage, native: Outcome, ok: bool, c: Close)
    requires f in s.fg && RunSound(s.fg[f], c) && stage != Publishing
    requires Ready(s, StageSection(s, f, g, stage, native, ok))
    requires stage == Committing && s.fg[f].kind.Prompted? ==> !s.fg[f].commitFailed
    ensures ChangeSound(s, StageSection(s, f, g, stage, native, ok), c)
  {
    var v := s.fg[f];
    match stage {
      case Mark => MarkSound(v, None, Running, c);
      case Judging => JudgeSound(v, native, c);
      case Committing => CommitSound(v, s.ephemeral || ok, c);
      case Claiming => ClaimSound(v, c);
      case _ =>
    }
  }

  lemma PumpSettleChange(st: State, g: Gen, step: PumpStep)
    requires Base(st) && Settlements(st) && Enabled(st, PumpL(g, step)) && step.Settle?
    ensures ChangeSound(st.s, PumpSection(st.s, st.pumps[g], g, step), st.close)
  {
    var p := st.pumps[g];
    assert PumpKnows(st.s.fg, g, p) && PumpSound(st.s, p);
    var v := st.s.fg[p.f];
    assert RunSound(v, st.close);
    if p.stage != Publishing {
      StageChange(st.s, p.f, g, p.stage, step.native, step.ok, st.close);
    } else if Live(st.s, p.f) {
      PublishAgentSound(v, Terminal(Verdict(st.s, p.f), Settlement), st.close);
    }
  }

  lemma PumpChange(st: State, g: Gen, step: PumpStep)
    requires Base(st) && Settlements(st) && Enabled(st, PumpL(g, step)) && !step.Settle?
    ensures ChangeSound(st.s, PumpSection(st.s, st.pumps[g], g, step), st.close)
  {
    var p := st.pumps[g];
    assert PumpKnows(st.s.fg, g, p);
    match step {
      case AcceptTurn => MarkSound(st.s.fg[p.f], Current(st.s), Running, st.close);
      case SettleRun => MarkSound(st.s.fg[p.f], None, Settled, st.close);
      case FailCycle =>
        if p.c.Some? { PublishAgentSound(st.s.fg[p.c.value], Terminal(Failed, Death), st.close); }
      case EndTurn =>
        if p.t.Some? { MarkSound(st.s.fg[p.t.value], None, TransportEnded, st.close); }
      case _ =>
    }
  }

  lemma PromptChange(st: State, step: PromptStep)
    requires Base(st) && Settlements(st) && Enabled(st, PromptL(step))
    ensures ChangeSound(st.s, PromptSection(st.s, st.gate, st.launch, step), st.close)
  {
    match step {
      case Accepted => MarkSound(st.s.fg[st.gate.prompt.f], Current(st.s), Running, st.close);
      case Abort => MarkSound(st.s.fg[st.gate.prompt.f], None, TransportEnded, st.close);
      case SettleTurn(native, ok) =>
        var p := st.gate.prompt;
        var v := st.s.fg[p.f];
        assert RunSound(v, st.close) && ClosureSound(st.s, p.f, p.stage);
        if p.stage != Publishing {
          StageChange(st.s, p.f, p.g, p.stage, native, ok, st.close);
        } else if Live(st.s, p.f) {
          PublishPromptSound(v, Terminal(Verdict(st.s, p.f), Settlement), st.close);
        }
      case _ =>
    }
  }

  lemma CloseStepSound(s: Shared, c: Close, step: CloseStep, v: Foreground, st: State)
    requires st.s == s && st.close == c && Base(st) && CloseEnabled(st, step) && RunSound(v, c) && CloseSound(c)
    ensures RunSound(v, CloseNext(s, c, step)) && CloseSound(CloseNext(s, c, step))
  {
  }

  lemma CloseChange(st: State, step: CloseStep)
    requires Base(st) && Settlements(st) && Enabled(st, CloseL(step))
    ensures ChangeSound(st.s, CloseSection(st.close, step), CloseNext(st.s, st.close, step))
  {
    if step.Begin? && st.s.turn.Some? {
      var v := st.s.fg[st.s.turn.value];
      CloseStepSound(st.s, st.close, step, v, st);
      MarkSound(v, None, Running, CloseNext(st.s, st.close, step));
    } else if step.IdleCycle? && st.close.taken.Some? && st.close.committed != Some(false) {
      CloseCancels(st);
    }
  }

  lemma CloseCancels(st: State)
    requires Base(st) && Settlements(st) && Enabled(st, CloseL(IdleCycle))
    requires st.close.taken.Some? && st.close.committed != Some(false)
    ensures ChangeSound(st.s, CloseSection(st.close, IdleCycle), CloseNext(st.s, st.close, IdleCycle))
  {
    var v := st.s.fg[st.close.taken.value];
    CloseStepSound(st.s, st.close, IdleCycle, v, st);
    assert st.close.committed.Some? ==> st.close.committed.value == true;
    PublishAgentSound(v, Terminal(Cancelled, Closing), CloseNext(st.s, st.close, IdleCycle));
  }

  lemma OtherChange(st: State, l: Label)
    requires Base(st) && Settlements(st) && Enabled(st, l)
    requires !l.PumpL? && !l.PromptL? && !l.CloseL?
    ensures ChangeSound(st.s, SectionOf(st, l), st.close)
  {
    if l.CancelL? && CancelTakesEffect(st.s) {
      MarkSound(st.s.fg[Slot(st.s).value], None, Running, st.close);
    }
  }

  lemma StepChange(st: State, l: Label)
    requires Base(st) && Settlements(st) && Enabled(st, l)
    ensures ChangeSound(st.s, SectionOf(st, l), if l.CloseL? then CloseNext(st.s, st.close, l.close) else st.close)
  {
    match l {
      case PumpL(g, step) => if step.Settle? { PumpSettleChange(st, g, step); } else { PumpChange(st, g, step); }
      case PromptL(step) => PromptChange(st, step);
      case CloseL(step) => CloseChange(st, step);
      case _ => OtherChange(st, l);
    }
  }

  lemma RunsStaySound(st: State, l: Label)
    requires Base(st) && Settlements(st) && Enabled(st, l)
    ensures var c' := if l.CloseL? then CloseNext(st.s, st.close, l.close) else st.close;
            RunsSound(Runs(st.s, SectionOf(st, l)), c') && CloseSound(c')
  {
    StepChange(st, l);
    var fg := st.s.fg;
    var fg' := Runs(st.s, SectionOf(st, l));
    var c' := if l.CloseL? then CloseNext(st.s, st.close, l.close) else st.close;
    if l.CloseL? { CloseStepSound(st.s, st.close, l.close, Fresh(Prompted, None), st); }
    forall f | f in fg' ensures RunSound(fg'[f], c') {
      if f in fg && fg'[f] == fg[f] && l.CloseL? {
        CloseStepSound(st.s, st.close, l.close, fg[f], st);
      }
    }
  }

  /******* Who is settling stays known *******/

  lemma SettlingBegins(s: Shared, f: Fid, g: Gen, stage: Stage, native: Outcome, ok: bool)
    requires NotAhead(s, f) && s.fg[f].kind.Agent? && SettlingSound(s, f, stage)
    requires stage == Mark || stage == Join || stage == Judging || stage == Committing
    ensures SettlingSound(Apply(s, StageSection(s, f, g, stage, native, ok)), f, NextStage(s, f, stage, ok))
  {
  }

  lemma SettlingEnds(s: Shared, f: Fid, g: Gen, stage: Stage, native: Outcome, ok: bool)
    requires NotAhead(s, f) && s.fg[f].kind.Agent? && SettlingSound(s, f, stage)
    requires stage == Fencing || stage == Dropping || stage == Claiming || stage == Publishing
    ensures SettlingSound(Apply(s, StageSection(s, f, g, stage, native, ok)), f, NextStage(s, f, stage, ok))
  {
  }

  lemma PumpStageMoves(st: State, g: Gen, step: PumpStep)
    requires Base(st) && Settlements(st) && Enabled(st, PumpL(g, step))
    ensures PumpSound(Apply(st.s, PumpSection(st.s, st.pumps[g], g, step)), PumpNext(st.s, st.pumps[g], g, step))
  {
    var p := st.pumps[g];
    assert PumpKnows(st.s.fg, g, p) && PumpSound(st.s, p);
    if step.Settle? && p.stage != Clearing {
      assert NotAhead(st.s, p.f);
      if p.stage == Mark || p.stage == Join || p.stage == Judging || p.stage == Committing {
        SettlingBegins(st.s, p.f, g, p.stage, step.native, step.ok);
      } else {
        SettlingEnds(st.s, p.f, g, p.stage, step.native, step.ok);
      }
    }
  }

  /** Whatever another goroutine does to a run being settled by a pump, what its stage relies on stays. */
  lemma SettlingSurvives(s: Shared, t: Shared, f: Fid, stage: Stage)
    requires Evolves(s, t) && NotAhead(s, f) && s.fg[f].kind.Agent? && SettlingSound(s, f, stage)
    ensures SettlingSound(t, f, stage)
  {
  }

  lemma OtherPumpSurvives(st: State, t: Shared, g: Gen)
    requires Base(st) && Settlements(st) && Evolves(st.s, t) && g in st.pumps
    ensures PumpSound(t, st.pumps[g])
  {
    assert PumpKnows(st.s.fg, g, st.pumps[g]) && PumpSound(st.s, st.pumps[g]);
    if st.pumps[g].Settling? {
      assert NotAhead(st.s, st.pumps[g].f);
      SettlingSurvives(st.s, t, st.pumps[g].f, st.pumps[g].stage);
    }
  }

  lemma PumpsStaySound(st: State, l: Label)
    requires Base(st) && Settlements(st) && Enabled(st, l)
    ensures PumpsSound(Apply(st.s, SectionOf(st, l)), NextPumps(st, l))
  {
    StepEvolves(st, l);
    var t := Apply(st.s, SectionOf(st, l));
    forall g | g in NextPumps(st, l) ensures PumpSound(t, NextPumps(st, l)[g]) {
      if l.PumpL? && l.g == g {
        PumpStageMoves(st, g, l.pump);
      } else if g in st.pumps && NextPumps(st, l)[g] == st.pumps[g] {
        OtherPumpSurvives(st, t, g);
      }
    }
  }

  lemma ClosureMoves(s: Shared, f: Fid, g: Gen, stage: Stage, native: Outcome, ok: bool)
    requires NotAhead(s, f) && s.fg[f].kind.Prompted? && ClosureSound(s, f, stage) && stage != Publishing
    ensures ClosureSound(Apply(s, StageSection(s, f, g, stage, native, ok)), f, NextStage(s, f, stage, ok))
  {
  }

  lemma PromptMoves(st: State, step: PromptStep)
    requires Base(st) && Settlements(st) && Enabled(st, PromptL(step))
    ensures PromptSound(Apply(st.s, PromptSection(st.s, st.gate, st.launch, step)), PromptNext(st.s, st.gate, st.launch, step))
  {
    if step.SettleTurn? {
      var p := st.gate.prompt;
      assert NotAhead(st.s, p.f);
      if p.stage != Publishing { ClosureMoves(st.s, p.f, p.g, p.stage, step.native, step.ok); }
    }
  }

  /** A change other goroutines make to a run its prompt still holds: what it is settled by is left alone. */
  predicate Spares(v: Foreground, w: Foreground) {
    && w.native == v.native && w.claimed == v.claimed && w.commitFailed == v.commitFailed
    && w.published == v.published && w.settling == v.settling && w.durable == v.durable && w.verdict == v.verdict
  }

  /** Only settlement and terminal events of the run itself rewrite what it is settled by. */
  predicate Settles(x: Section, f: Fid) {
    match x
    case Install(h) => h == f
    case Mint(h, _) => h == f
    case Begin(h) => h == f
    case Judge(h, _) => h == f
    case Commit(h, _) => h == f
    case Claim(h) => h == f
    case Idle(h, _) => h == f
    case _ => false
  }

  lemma OthersSpare(s: Shared, x: Section, f: Fid)
    requires f in s.fg && !Settles(x, f)
    ensures f in Runs(s, x) && Spares(s.fg[f], Runs(s, x)[f])
  {
    var c := Changed(s, x);
    if c.Some? && c.value.f == f {
      assert Spares(s.fg[f], c.value.v);
    }
  }

  lemma PumpSparesTurns(st: State, g: Gen, step: PumpStep, f: Fid)
    requires Base(st) && Enabled(st, PumpL(g, step)) && f in st.s.fg && st.s.fg[f].kind.Prompted?
    ensures !Settles(PumpSection(st.s, st.pumps[g], g, step), f)
  {
  }

  lemma TurnSpared(st: State, l: Label)
    requires Base(st) && Enabled(st, l) && !l.PromptL? && st.s.turn.Some?
    ensures Spares(Of(st.s, st.s.turn.value), Of(Apply(st.s, SectionOf(st, l)), st.s.turn.value))
  {
    if l.PumpL? { PumpSparesTurns(st, l.g, l.pump, st.s.turn.value); }
    OthersSpare(st.s, SectionOf(st, l), st.s.turn.value);
  }

  lemma PromptSurvives(s: Shared, t: Shared, gate: Gate)
    requires PromptSound(s, gate) && IsTurn(s.fg, s.turn) && Evolves(s, t) && IncsBehind(s)
    requires HeldTurn(gate) == s.turn
    requires s.turn.Some? ==> Spares(Of(s, s.turn.value), Of(t, s.turn.value))
    ensures PromptSound(t, gate)
  {
  }

  lemma PromptStaysSound(st: State, l: Label)
    requires Base(st) && Settlements(st) && Enabled(st, l)
    ensures PromptSound(Apply(st.s, SectionOf(st, l)), NextGate(st, l))
  {
    if l.PromptL? {
      PromptMoves(st, l.prompt);
    } else {
      StepEvolves(st, l);
      if st.s.turn.Some? { TurnSpared(st, l); }
      PromptSurvives(st.s, Apply(st.s, SectionOf(st, l)), st.gate);
    }
  }

  lemma StepKeepsSettlements(st: State, l: Label)
    requires Base(st) && Settlements(st) && Enabled(st, l)
    ensures Settlements(Next(st, l))
  {
    RunsStaySound(st, l);
    PumpsStaySound(st, l);
    PromptStaysSound(st, l);
  }
}
