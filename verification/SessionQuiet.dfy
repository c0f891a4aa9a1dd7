/**
 What a run's settlement leaves behind: no interrupt of a settled run in any run of the session, and, in clean ones, no
 callback of a live agent run at all, nor a change to a verdict once it is claimed.
 */
module SessionQuiet {
  import opened Options
  import opened SessionState
  import opened SessionMachine
  import opened SessionFacts
  import opened SessionSettlement
  import opened SessionProcesses
  import opened SessionCycles

  /******* Interrupts, in every run *******/

  predicate NoInterrupt(s: Shared, f: Fid) {
    forall cid :: cid in s.callbacks ==> s.callbacks[cid] != Interrupt(f)
  }

  /** A settlement of the run has joined the callbacks: it is about to judge, or has judged. */
  ghost predicate Settlers(st: State, f: Fid) {
    || Of(st.s, f).native.Some?
    || (exists g :: g in st.pumps && st.pumps[g] == Settling(f, Judging))
    || (st.gate.Prompting? && st.gate.prompt.Closure? && st.gate.prompt.f == f && st.gate.prompt.stage == Judging)
  }

  ghost predicate Uninterrupted(st: State, f: Fid) {
    Settlers(st, f) ==> Of(st.s, f).settling && NoInterrupt(st.s, f)
  }

  /** An interrupt is admitted only for a run that is not settling. */
  lemma NoInterruptAdmitted(s: Shared, x: Section, f: Fid)
    requires f in s.fg && s.fg[f].settling && NoInterrupt(s, f)
    ensures NoInterrupt(Apply(s, x), f)
  {
  }

  /** Whoever comes to judge has joined: it was so before the step, or the step joins and finds no callback. */
  lemma SettlersCome(st: State, l: Label, f: Fid)
    requires Base(st) && Settlements(st) && Enabled(st, l) && Settlers(Next(st, l), f) && f in st.s.fg
    ensures Settlers(st, f) || (st.s.callbacks == map[] && Of(st.s, f).settling && SectionOf(st, l).NoSection?)
  {
    if Of(Next(st, l).s, f).native.Some? && Of(st.s, f).native.None? { JudgedBySettler(st, l, f); }
    if g :| g in NextPumps(st, l) && NextPumps(st, l)[g] == Settling(f, Judging) {
      if l.PumpL? && l.g == g {
        assert PumpSound(st.s, st.pumps[g]);
        PumpJoins(st, g, l.pump, f);
      } else {
        assert st.pumps[g] == Settling(f, Judging);
      }
    }
    if l.PromptL? { PromptJoins(st, l.prompt, f); }
  }

  lemma PumpJoins(st: State, g: Gen, step: PumpStep, f: Fid)
    requires Enabled(st, PumpL(g, step)) && PumpNext(st.s, st.pumps[g], g, step) == Settling(f, Judging)
    ensures st.pumps[g] == Settling(f, Join) && st.s.callbacks == map[] && PumpSection(st.s, st.pumps[g], g, step).NoSection?
  {
  }

  lemma PromptJoins(st: State, step: PromptStep, f: Fid)
    requires Enabled(st, PromptL(step))
    ensures var gate := PromptNext(st.s, st.gate, st.launch, step);
            gate.Prompting? && gate.prompt.Closure? && gate.prompt.f == f && gate.prompt.stage == Judging ==>
              && st.gate.Prompting? && st.gate.prompt.Closure? && st.gate.prompt.f == f && st.gate.prompt.stage == Join
              && st.s.callbacks == map[] && PromptSection(st.s, st.gate, st.launch, step).NoSection?
  {
  }

  lemma JudgeMakesNative(s: Shared, x: Section, f: Fid)
    requires Of(Apply(s, x), f).native.Some? && Of(s, f).native.None?
    ensures x.Judge? && x.f == f
  {
    ChangedAlone(s, x, f);
    if Named(x) { NamedKeeps(s, x); } else { UnnamedKeeps(s, x); }
  }

  /** The sections that rewrite the run they name, judging and claiming apart. */
  predicate Named(x: Section) {
    x.Accept? || x.End? || x.Begin? || x.Commit? || x.Idle?
  }

  lemma NamedKeeps(s: Shared, x: Section)
    requires Named(x) && Changed(s, x).Some?
    ensures var c := Changed(s, x).value; c.v.native == Of(s, c.f).native && c.v.claimed == Of(s, c.f).claimed
  {
  }

  lemma UnnamedKeeps(s: Shared, x: Section)
    requires !Named(x) && Changed(s, x).Some?
    ensures var c := Changed(s, x).value;
            && (c.v.native.Some? ==> Of(s, c.f).native.Some? || x == Section.Judge(c.f, c.v.native.value))
            && (c.v.claimed.Some? ==> Of(s, c.f).claimed.Some? || x == Section.Claim(c.f))
  {
  }

  /** A section changes no run but the one it names. */
  lemma ChangedAlone(s: Shared, x: Section, f: Fid)
    ensures Of(Apply(s, x), f) ==
            if Changed(s, x).Some? && Changed(s, x).value.f == f then Changed(s, x).value.v else Of(s, f)
  {
  }

  lemma JudgedBySettler(st: State, l: Label, f: Fid)
    requires Base(st) && Enabled(st, l)
    requires Of(Apply(st.s, SectionOf(st, l)), f).native.Some? && Of(st.s, f).native.None?
    ensures Settlers(st, f)
  {
    JudgeMakesNative(st.s, SectionOf(st, l), f);
    JudgesAtJudging(st, l, f);
  }

  lemma JudgesAtJudging(st: State, l: Label, f: Fid)
    requires Enabled(st, l) && SectionOf(st, l).Judge? && SectionOf(st, l).f == f
    ensures Settlers(st, f)
  {
    match l {
      case PumpL(g, step) => assert st.pumps[g] == Settling(f, Judging);
      case PromptL(step) =>
      case _ =>
    }
  }

  lemma StepKeepsUninterrupted(st: State, l: Label, f: Fid)
    requires Inv(st) && Enabled(st, l) && Uninterrupted(st, f)
    ensures Uninterrupted(Next(st, l), f)
  {
    if Settlers(Next(st, l), f) {
      if f in st.s.fg {
        SettlersCome(st, l, f);
        StepEvolves(st, l);
        assert Ages(st.s.fg[f], Next(st, l).s.fg[f]);
        NoInterruptAdmitted(st.s, SectionOf(st, l), f);
      } else {
        NewcomerUnsettled(st, l, f);
      }
    }
  }

  lemma SettlersMarked(st: State, f: Fid)
    requires Settlements(st) && Settlers(st, f) && Of(st.s, f).native.None?
    ensures Of(st.s, f).settling
  {
    if g :| g in st.pumps && st.pumps[g] == Settling(f, Judging) { assert PumpSound(st.s, st.pumps[g]); }
  }

  lemma SettlesKnown(st: State, l: Label)
    requires Base(st) && Enabled(st, l) && (SectionOf(st, l).Begin? || SectionOf(st, l).Judge?)
    ensures SectionOf(st, l).f in st.s.fg
  {
    if l.PumpL? { assert PumpKnows(st.s.fg, l.g, st.pumps[l.g]); }
  }

  lemma NewRunUnmarked(s: Shared, x: Section, f: Fid)
    requires f !in s.fg && (x.Begin? || x.Judge? ==> x.f != f)
    ensures !Of(Apply(s, x), f).settling && Of(Apply(s, x), f).native.None?
  {
    ChangedAlone(s, x, f);
  }

  lemma NewcomerUnmarked(st: State, l: Label, f: Fid)
    requires Base(st) && Enabled(st, l) && f !in st.s.fg
    ensures !Of(Apply(st.s, SectionOf(st, l)), f).settling && Of(Apply(st.s, SectionOf(st, l)), f).native.None?
  {
    if SectionOf(st, l).Begin? || SectionOf(st, l).Judge? { SettlesKnown(st, l); }
    NewRunUnmarked(st.s, SectionOf(st, l), f);
  }

  lemma NewcomerUnsettled(st: State, l: Label, f: Fid)
    requires Inv(st) && Enabled(st, l) && f !in st.s.fg
    ensures !Settlers(Next(st, l), f)
  {
    StepKeeps(st, l);
    NewcomerUnmarked(st, l, f);
    if Settlers(Next(st, l), f) { SettlersMarked(Next(st, l), f); }
  }

  lemma {:induction false} RunKeepsUninterrupted(st: State, ls: seq<Label>, f: Fid)
    requires Inv(st) && Legal(st, ls) && Uninterrupted(st, f)
    ensures Uninterrupted(Run(st, ls), f)
    decreases |ls|
  {
    if ls != [] {
      StepKeepsUninterrupted(st, ls[0], f);
      StepKeeps(st, ls[0]);
      RunKeepsUninterrupted(Next(st, ls[0]), ls[1..], f);
    }
  }

  /** In any run of the session, once a settlement of a foreground has joined the callbacks no interrupt of that
      foreground is ever left or admitted. */
  lemma NoInterruptOfSettled(ephemeral: bool, ls: seq<Label>, f: Fid)
    requires Legal(Init(ephemeral), ls) && Settlers(Run(Init(ephemeral), ls), f)
    ensures NoInterrupt(Run(Init(ephemeral), ls).s, f)
  {
    InitInv(ephemeral);
    RunKeepsUninterrupted(Init(ephemeral), ls, f);
  }

  /******* All callbacks, and the claim, in clean runs *******/

  predicate CallbackOf(callback: Callback, f: Fid) {
    callback == Interrupt(f) || (callback.Dialog? && callback.f == f)
  }

  predicate NoCallback(s: Shared, f: Fid) {
    forall cid :: cid in s.callbacks ==> !CallbackOf(s.callbacks[cid], f)
  }

  /** The run's owner is past the join of its settlement, or of its generation's end, or its event is out. */
  predicate PastJoin(s: Shared, p: Pump, f: Fid) {
    || Of(s, f).published != []
    || (p.Settling? && p.f == f && p.stage != Mark && p.stage != Join)
    || (p.Ending? && p.c == Some(f) && p.leg == IdleLeg)
  }

  predicate QuietRun(s: Shared, pumps: map<Gen, Pump>, f: Fid) {
    LiveRun(s, f) ==>
      var p := PumpOf(pumps, GenOf(s, f));
      && (PastJoin(s, p, f) ==> NoCallback(s, f))
      && (s.fg[f].claimed.Some? ==> s.fg[f].published != [] || p == Settling(f, Publishing))
  }

  lemma AdmissionsOf(s: Shared, x: Section, f: Fid)
    requires NoCallback(s, f) && !NoCallback(Apply(s, x), f)
    ensures (x.Register? && x.f == f) || (x.CancelSlot? && Slot(s) == Some(f) && !Of(s, f).settling)
  {
    var cid :| cid in Callbacks(s, x) && CallbackOf(Callbacks(s, x)[cid], f);
    assert cid in s.callbacks ==> !CallbackOf(s.callbacks[cid], f);
  }

  lemma RegistersAtWork(st: State, l: Label)
    requires Enabled(st, l) && SectionOf(st, l).Register?
    ensures l.PumpL? && st.pumps[l.g] == Work(SectionOf(st, l).f)
  {
  }

  /** A callback of a live run is admitted by its owner at work on it, or by a cancel while it holds the slot unsettled. */
  lemma AdmittedTo(st: State, l: Label, f: Fid)
    requires Stepping(st, l) && f in st.s.fg && LiveRun(st.s, f) && NoCallback(st.s, f)
    requires !NoCallback(Apply(st.s, SectionOf(st, l)), f)
    ensures PumpOf(st.pumps, GenOf(st.s, f)) == Work(f) || (st.s.cycle == Some(f) && !st.s.fg[f].settling)
  {
    AdmissionsOf(st.s, SectionOf(st, l), f);
    if SectionOf(st, l).Register? {
      RegistersAtWork(st, l);
      assert PumpClean(st.s, l.g, st.pumps[l.g]);
    } else {
      assert IsTurn(st.s.fg, st.s.turn);
    }
  }

  /** Past the join nobody admits a callback of the run. */
  lemma PastJoinAdmitsNone(st: State, l: Label, f: Fid)
    requires Stepping(st, l) && f in st.s.fg && LiveRun(st.s, f)
    requires PastJoin(st.s, PumpOf(st.pumps, GenOf(st.s, f)), f) && NoCallback(st.s, f)
    ensures NoCallback(Apply(st.s, SectionOf(st, l)), f)
  {
    var h := GenOf(st.s, f);
    var p := PumpOf(st.pumps, h);
    assert RunClean(st.s, st.pumps, f);
    if h in st.pumps { assert PumpClean(st.s, h, p) && PumpSound(st.s, p); }
    if !NoCallback(Apply(st.s, SectionOf(st, l)), f) { AdmittedTo(st, l, f); }
  }

  /** The step that brings a live run past its join finds no callback. */
  lemma JoinsWithNone(st: State, l: Label, f: Fid)
    requires Stepping(st, l) && f in st.s.fg && LiveRun(st.s, f)
    requires var h := GenOf(st.s, f);
             && !PastJoin(st.s, PumpOf(st.pumps, h), f)
             && PastJoin(Apply(st.s, SectionOf(st, l)), PumpOf(NextPumps(st, l), h), f)
    ensures Callbacks(st.s, SectionOf(st, l)) == map[]
  {
    var h := GenOf(st.s, f);
    if SectionOf(st, l).Idle? && SectionOf(st, l).f == f {
      PublishesAfterJoin(st, l, f);
    } else {
      StepFits(st, l);
      PublishedSame(st.s, SectionOf(st, l), f);
      if l.PumpL? && l.g == h { OwnerJoins(st, l.pump, f); } else { PumpMoves(st, l, h); }
    }
  }

  lemma OwnerJoins(st: State, step: PumpStep, f: Fid)
    requires f in st.s.fg && GenOf(st.s, f) in st.pumps && Enabled(st, PumpL(GenOf(st.s, f), step))
    requires !PastJoin(st.s, st.pumps[GenOf(st.s, f)], f) && Of(st.s, f).published == []
    requires PastJoin(st.s, PumpNext(st.s, st.pumps[GenOf(st.s, f)], GenOf(st.s, f), step), f)
    ensures st.s.callbacks == map[] && PumpSection(st.s, st.pumps[GenOf(st.s, f)], GenOf(st.s, f), step) == NoSection
  {
  }

  /** A live run is published by its owner past the join, or by a close, which has joined every callback. */
  lemma PublishesAfterJoin(st: State, l: Label, f: Fid)
    requires Stepping(st, l) && f in st.s.fg && LiveRun(st.s, f)
    requires SectionOf(st, l).Idle? && SectionOf(st, l).f == f
    ensures PastJoin(st.s, PumpOf(st.pumps, GenOf(st.s, f)), f) || st.s.callbacks == map[]
  {
    if l.PumpL? { assert PumpClean(st.s, l.g, st.pumps[l.g]); }
  }

  lemma ClaimsByOwner(st: State, l: Label, f: Fid)
    requires Stepping(st, l) && f in st.s.fg && LiveRun(st.s, f)
    requires SectionOf(st, l).Claim? && SectionOf(st, l).f == f
    ensures PumpOf(NextPumps(st, l), GenOf(st.s, f)) == Settling(f, Publishing)
  {
    match l {
      case PumpL(g, step) =>
        PumpClaims(st, g, step);
        assert PumpClean(st.s, g, st.pumps[g]);
      case PromptL(step) => PromptClaimsTurn(st, step);
      case _ =>
    }
  }

  lemma PromptClaimsTurn(st: State, step: PromptStep)
    requires Base(st) && Enabled(st, PromptL(step)) && PromptSection(st.s, st.gate, st.launch, step).Claim?
    ensures Some(PromptSection(st.s, st.gate, st.launch, step).f) == st.s.turn
  {
  }

  lemma PumpClaims(st: State, g: Gen, step: PumpStep)
    requires Enabled(st, PumpL(g, step)) && PumpSection(st.s, st.pumps[g], g, step).Claim?
    ensures var f := PumpSection(st.s, st.pumps[g], g, step).f;
            st.pumps[g] == Settling(f, Claiming) && PumpNext(st.s, st.pumps[g], g, step) == Settling(f, Publishing)
  {
  }

  lemma OnlyClaimsClaim(s: Shared, x: Section, f: Fid)
    requires f in s.fg && f in Runs(s, x) && Runs(s, x)[f].claimed != s.fg[f].claimed && !x.Install? && !x.Mint?
    ensures x == Section.Claim(f)
  {
  }

  lemma PublishingPublishes(st: State, l: Label, f: Fid)
    requires Stepping(st, l) && f in st.s.fg && LiveRun(st.s, f)
    requires PumpOf(st.pumps, GenOf(st.s, f)) == Settling(f, Publishing)
    ensures Of(Apply(st.s, SectionOf(st, l)), f).published != [] || PumpOf(NextPumps(st, l), GenOf(st.s, f)) == Settling(f, Publishing)
  {
    var h := GenOf(st.s, f);
    if l.PumpL? && l.g == h {
      assert SectionOf(st, l) == Section.Idle(f, Terminal(Verdict(st.s, f), Settlement));
    } else {
      PumpMoves(st, l, h);
    }
  }

  lemma ClaimStaysHeld(st: State, l: Label, f: Fid)
    requires Stepping(st, l) && f in st.s.fg && LiveRun(st.s, f) && QuietRun(st.s, st.pumps, f)
    requires Fits(st.s, SectionOf(st, l)) && Ages(st.s.fg[f], Of(Apply(st.s, SectionOf(st, l)), f))
    ensures var v := Of(Apply(st.s, SectionOf(st, l)), f);
            v.claimed.Some? ==> v.published != [] || PumpOf(NextPumps(st, l), GenOf(st.s, f)) == Settling(f, Publishing)
  {
    if SectionOf(st, l) == Section.Claim(f) {
      ClaimsByOwner(st, l, f);
    } else if Of(Apply(st.s, SectionOf(st, l)), f).claimed.Some? {
      if Runs(st.s, SectionOf(st, l))[f].claimed != st.s.fg[f].claimed { OnlyClaimsClaim(st.s, SectionOf(st, l), f); }
      if st.s.fg[f].published == [] { PublishingPublishes(st, l, f); }
    }
  }

  lemma OldRunStaysQuiet(st: State, l: Label, f: Fid)
    requires Stepping(st, l) && f in st.s.fg && QuietRun(st.s, st.pumps, f)
    ensures QuietRun(Apply(st.s, SectionOf(st, l)), NextPumps(st, l), f)
  {
    var t := Apply(st.s, SectionOf(st, l));
    StepEvolves(st, l);
    StepFits(st, l);
    assert NotAhead(st.s, f) && Ages(st.s.fg[f], t.fg[f]);
    if LiveRun(t, f) {
      var h := GenOf(st.s, f);
      LiveBefore(st.s, t, f);
      ClaimStaysHeld(st, l, f);
      if PastJoin(t, PumpOf(NextPumps(st, l), h), f) {
        if PastJoin(st.s, PumpOf(st.pumps, h), f) { PastJoinAdmitsNone(st, l, f); } else { JoinsWithNone(st, l, f); }
      }
    }
  }

  lemma HandlesOld(st: State, l: Label, g: Gen)
    requires Base(st) && Enabled(st, l)
    ensures var p := PumpOf(NextPumps(st, l), g);
            && (p.Settling? ==> p.f in st.s.fg)
            && (p.Ending? && p.c.Some? ==> p.c.value in st.s.fg)
  {
    if l.PumpL? && l.g == g {
      HandledOld(st, g, l.pump);
    } else if g in st.pumps {
      assert PumpKnows(st.s.fg, g, st.pumps[g]);
    }
  }

  lemma NewRunIsQuiet(st: State, l: Label, f: Fid)
    requires Stepping(st, l) && f !in st.s.fg && f in Runs(st.s, SectionOf(st, l))
    ensures QuietRun(Apply(st.s, SectionOf(st, l)), NextPumps(st, l), f)
  {
    var t := Apply(st.s, SectionOf(st, l));
    NewRunsSilent(st.s, SectionOf(st, l), f);
    HandlesOld(st, l, GenOf(t, f));
    if t.fg[f].claimed.Some? { ClaimsKnown(st, l, f); }
  }

  lemma ClaimsKnown(st: State, l: Label, f: Fid)
    requires Base(st) && Enabled(st, l) && Of(Apply(st.s, SectionOf(st, l)), f).claimed.Some? && Of(st.s, f).claimed.None?
    ensures f in st.s.fg
  {
    ClaimMakesClaimed(st.s, SectionOf(st, l), f);
    if l.PumpL? { assert PumpKnows(st.s.fg, l.g, st.pumps[l.g]); }
  }

  lemma ClaimMakesClaimed(s: Shared, x: Section, f: Fid)
    requires Of(Apply(s, x), f).claimed.Some? && Of(s, f).claimed.None?
    ensures x == Section.Claim(f)
  {
    ChangedAlone(s, x, f);
    if Named(x) { NamedKeeps(s, x); } else { UnnamedKeeps(s, x); }
  }

  ghost predicate Quieted(st: State) {
    forall f :: f in st.s.fg ==> QuietRun(st.s, st.pumps, f)
  }

  lemma {:induction false} RunKeepsQuiet(st: State, ls: seq<Label>)
    requires Inv(st) && Cycles(st) && Quieted(st) && Legal(st, ls) && Clean(Run(st, ls))
    ensures Quieted(Run(st, ls)) && Cycles(Run(st, ls)) && Inv(Run(st, ls))
    decreases |ls|
  {
    if ls != [] {
      var l := ls[0];
      StaysClean(st, ls);
      StepKeeps(st, l);
      StepKeepsCycles(st, l);
      forall f | f in Next(st, l).s.fg ensures QuietRun(Next(st, l).s, Next(st, l).pumps, f) {
        if f in st.s.fg { OldRunStaysQuiet(st, l, f); } else { NewRunIsQuiet(st, l, f); }
      }
      RunKeepsQuiet(Next(st, l), ls[1..]);
    }
  }

  lemma ReachedQuiet(ephemeral: bool, ls: seq<Label>)
    requires Legal(Init(ephemeral), ls) && Clean(Run(Init(ephemeral), ls))
    ensures var st := Run(Init(ephemeral), ls); Inv(st) && Cycles(st) && Quieted(st)
  {
    InitInv(ephemeral);
    InitCycles(ephemeral);
    RunKeepsQuiet(Init(ephemeral), ls);
  }
}
