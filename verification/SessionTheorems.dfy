/**
 What a session promises over every run: `Init(e)` is an established session, ephemeral or not, and `ls` any legal
 interleaving.
 */
module SessionTheorems {
  import opened Options
  import opened SessionState
  import opened SessionMachine
  import opened SessionFacts
  import opened SessionSettlement
  import opened SessionProcesses
  import opened SessionCycles
  import opened SessionQuiet

  lemma Reached(ephemeral: bool, ls: seq<Label>)
    requires Legal(Init(ephemeral), ls)
    ensures Inv(Run(Init(ephemeral), ls))
  {
    InitInv(ephemeral);
    RunKeeps(Init(ephemeral), ls);
  }

  lemma ReachedClean(ephemeral: bool, ls: seq<Label>)
    requires Legal(Init(ephemeral), ls) && Clean(Run(Init(ephemeral), ls))
    ensures Inv(Run(Init(ephemeral), ls)) && Cycles(Run(Init(ephemeral), ls))
  {
    InitInv(ephemeral);
    InitCycles(ephemeral);
    RunKeeps(Init(ephemeral), ls);
    RunKeepsCycles(Init(ephemeral), ls);
  }

  lemma KnownFlag(flag: Option<bool>)
    requires flag.Some?
    ensures flag == Some(true) || flag == Some(false)
  {
    if flag.value { assert flag == Some(true); } else { assert flag == Some(false); }
  }

  /******* Exclusion *******/

  /** Never a turn beside a cycle, and a turn only while its own prompt holds the gate. */
  lemma OneForeground(ephemeral: bool, ls: seq<Label>)
    requires Legal(Init(ephemeral), ls)
    ensures var st := Run(Init(ephemeral), ls);
            && !(st.s.turn.Some? && st.s.cycle.Some?)
            && (st.s.turn.Some? ==> st.gate.Prompting? && HeldTurn(st.gate) == st.s.turn)
  {
    Reached(ephemeral, ls);
  }

  /******* Durability *******/

  /** The step publishes a terminal event of this run. */
  predicate Publishes(st: State, l: Label, f: Fid) {
    Enabled(st, l) && SectionOf(st, l).Idle? && SectionOf(st, l).f == f && Live(st.s, f)
  }

  /** Somewhere along the run, a mirror commit made for this foreground succeeded. */
  ghost predicate EverCommits(st: State, ls: seq<Label>, f: Fid)
    requires Legal(st, ls)
    decreases |ls|
  {
    ls != [] && (SectionOf(st, ls[0]) == Section.Commit(f, true) || EverCommits(Next(st, ls[0]), ls[1..], f))
  }

  /** In a session the store knows, a run becomes durable by a commit and by nothing else. */
  lemma OnlyCommitsMakeDurable(s: Shared, x: Section, f: Fid)
    requires !s.ephemeral && !Of(s, f).durable && x != Section.Commit(f, true)
    ensures !Of(Apply(s, x), f).durable
  {
  }

  lemma {:induction false} DurableMeansCommitted(st: State, ls: seq<Label>, f: Fid)
    requires Legal(st, ls) && !st.s.ephemeral && !Of(st.s, f).durable && Of(Run(st, ls).s, f).durable
    ensures EverCommits(st, ls, f)
    decreases |ls|
  {
    if SectionOf(st, ls[0]) != Section.Commit(f, true) {
      OnlyCommitsMakeDurable(st.s, SectionOf(st, ls[0]), f);
      DurableMeansCommitted(Next(st, ls[0]), ls[1..], f);
    }
  }

  /** The terminal event of a prompt comes after a successful commit made for it. */
  lemma PromptTerminalIsDurable(ls: seq<Label>, l: Label, f: Fid)
    requires Legal(Init(false), ls) && Publishes(Run(Init(false), ls), l, f)
    requires Of(Run(Init(false), ls).s, f).kind.Prompted?
    ensures EverCommits(Init(false), ls, f)
    ensures SectionOf(Run(Init(false), ls), l).t == Terminal(Decided(Of(Run(Init(false), ls).s, f)), Settlement)
  {
    Reached(false, ls);
    var st := Run(Init(false), ls);
    PromptPublishes(st, l, f);
    DurableMeansCommitted(Init(false), ls, f);
  }

  lemma PromptPublishes(st: State, l: Label, f: Fid)
    requires Inv(st) && Publishes(st, l, f) && Of(st.s, f).kind.Prompted?
    ensures Of(st.s, f).durable && SectionOf(st, l).t == Terminal(Decided(Of(st.s, f)), Settlement)
    ensures TurnJoined(st.s, st.gate)
  {
  }

  /** An agent run's terminal event: settled after its commit, failed by its generation's death, or cancelled by a
      close, which has committed what the session owed if and only if it found the session persisted. */
  lemma AgentTerminalIsBacked(ls: seq<Label>, l: Label, f: Fid)
    requires Legal(Init(false), ls) && Publishes(Run(Init(false), ls), l, f)
    requires Of(Run(Init(false), ls).s, f).kind.Agent?
    ensures var st := Run(Init(false), ls);
            match SectionOf(st, l).t.via
            case Settlement => EverCommits(Init(false), ls, f)
            case Death => SectionOf(st, l).t.outcome == Failed
            case Closing => SectionOf(st, l).t.outcome == Cancelled && (st.close.committed == Some(true) <==> st.close.persisted)
  {
    Reached(false, ls);
    var st := Run(Init(false), ls);
    AgentPublishes(st, l, f);
    if SectionOf(st, l).t.via.Settlement? { DurableMeansCommitted(Init(false), ls, f); }
  }

  lemma AgentPublishes(st: State, l: Label, f: Fid)
    requires Inv(st) && Publishes(st, l, f) && Of(st.s, f).kind.Agent?
    ensures match SectionOf(st, l).t.via
            case Settlement => Of(st.s, f).durable
            case Death => SectionOf(st, l).t.outcome == Failed
            case Closing => SectionOf(st, l).t.outcome == Cancelled && (st.close.committed == Some(true) <==> st.close.persisted)
  {
    if l.PumpL? { assert PumpKnows(st.s.fg, l.g, st.pumps[l.g]) && PumpSound(st.s, st.pumps[l.g]); }
    if st.close.committed.Some? { KnownFlag(st.close.committed); }
  }

  /** A prompt whose commit failed, or whose transport was lost, never has a terminal event. */
  lemma NoTerminalUnbacked(ephemeral: bool, ls: seq<Label>, f: Fid)
    requires Legal(Init(ephemeral), ls) && f in Run(Init(ephemeral), ls).s.fg
    requires var v := Run(Init(ephemeral), ls).s.fg[f]; v.kind.Prompted? && (v.commitFailed || v.ended == TransportEnded)
    ensures Run(Init(ephemeral), ls).s.fg[f].published == []
  {
    Reached(ephemeral, ls);
    assert RunSound(Run(Init(ephemeral), ls).s.fg[f], Run(Init(ephemeral), ls).close);
  }

  /******* Terminal events appear once *******/

  lemma PromptEndsOnce(ephemeral: bool, ls: seq<Label>, f: Fid)
    requires Legal(Init(ephemeral), ls) && f in Run(Init(ephemeral), ls).s.fg
    requires Run(Init(ephemeral), ls).s.fg[f].kind.Prompted?
    ensures |Run(Init(ephemeral), ls).s.fg[f].published| <= 1
  {
    Reached(ephemeral, ls);
    assert RunSound(Run(Init(ephemeral), ls).s.fg[f], Run(Init(ephemeral), ls).close);
  }

  /** Settlement, the generation's death and close publish at most one terminal event of an agent run between them,
      provided no pump takes a foreground for an unbound generation and every pump join completes. */
  lemma AgentRunEndsOnce(ephemeral: bool, ls: seq<Label>, f: Fid)
    requires Legal(Init(ephemeral), ls) && Clean(Run(Init(ephemeral), ls))
    requires f in Run(Init(ephemeral), ls).s.fg && Run(Init(ephemeral), ls).s.fg[f].kind.Agent?
    ensures |Run(Init(ephemeral), ls).s.fg[f].published| <= 1
  {
    ReachedClean(ephemeral, ls);
    assert RunClean(Run(Init(ephemeral), ls).s, Run(Init(ephemeral), ls).pumps, f);
  }

  /** Outside a close, a pump that samples a live cycle samples one of its own generation exactly when that generation
      is still bound at the sample; the check the code makes when the event arrives is an earlier section. */
  lemma SampleTakesOwnExactly(ephemeral: bool, ls: seq<Label>, g: Gen, work: bool)
    requires Legal(Init(ephemeral), ls) && Clean(Run(Init(ephemeral), ls))
    requires var st := Run(Init(ephemeral), ls);
             && Enabled(st, PumpL(g, Look(work))) && !st.s.closing
             && st.s.cycle.Some? && LiveRun(st.s, st.s.cycle.value)
    ensures var st := Run(Init(ephemeral), ls);
            PumpNext(st.s, st.pumps[g], g, Look(work)) == Work(st.s.cycle.value)
    ensures var st := Run(Init(ephemeral), ls);
            GenOf(st.s, st.s.cycle.value) == g <==> st.s.runtime == Some(g)
  {
    ReachedClean(ephemeral, ls);
  }

  /******* Callbacks end with their run *******/

  /** No interrupt runs, no dialog is open and no action is unresolved when a prompt's terminal event appears, nor is
      any admitted from its join until the slot is free. */
  lemma PromptSettlesQuiet(ephemeral: bool, ls: seq<Label>, l: Label, f: Fid)
    requires Legal(Init(ephemeral), ls)
    ensures TurnJoined(Run(Init(ephemeral), ls).s, Run(Init(ephemeral), ls).gate) ==> Run(Init(ephemeral), ls).s.callbacks == map[]
    ensures Publishes(Run(Init(ephemeral), ls), l, f) && Of(Run(Init(ephemeral), ls).s, f).kind.Prompted? ==>
              Run(Init(ephemeral), ls).s.callbacks == map[]
  {
    Reached(ephemeral, ls);
    if Publishes(Run(Init(ephemeral), ls), l, f) && Of(Run(Init(ephemeral), ls).s, f).kind.Prompted? {
      PromptPublishes(Run(Init(ephemeral), ls), l, f);
    }
  }

  /** An agent run whose stream is live has no callback left, and gets none, from the join of its settlement or of its
      generation's end on, provided every sample so far was careful and every pump join completed. */
  lemma AgentRunSettlesQuiet(ephemeral: bool, ls: seq<Label>, f: Fid)
    requires Legal(Init(ephemeral), ls) && Clean(Run(Init(ephemeral), ls)) && LiveRun(Run(Init(ephemeral), ls).s, f)
    ensures var st := Run(Init(ephemeral), ls);
            PastJoin(st.s, PumpOf(st.pumps, GenOf(st.s, f)), f) ==> NoCallback(st.s, f)
  {
    ReachedQuiet(ephemeral, ls);
    assert QuietRun(Run(Init(ephemeral), ls).s, Run(Init(ephemeral), ls).pumps, f);
  }

  /** So when its terminal event appears, whoever publishes it. With no hypothesis on samples and joins, a close finds no
      callback at all and a settlement no interrupt of the run. */
  lemma AgentRunPublishesQuiet(ephemeral: bool, ls: seq<Label>, l: Label, f: Fid)
    requires Legal(Init(ephemeral), ls) && Publishes(Run(Init(ephemeral), ls), l, f)
    requires Of(Run(Init(ephemeral), ls).s, f).kind.Agent?
    ensures var st := Run(Init(ephemeral), ls);
            && (Clean(st) ==> NoCallback(st.s, f))
            && match SectionOf(st, l).t.via
               case Settlement => NoInterrupt(st.s, f)
               case Death => true
               case Closing => st.s.callbacks == map[]
  {
    var st := Run(Init(ephemeral), ls);
    Reached(ephemeral, ls);
    ClosePublishesQuiet(st, l, f);
    if Clean(st) {
      ReachedQuiet(ephemeral, ls);
      assert QuietRun(st.s, st.pumps, f);
      PublisherPastJoin(st, l, f);
    }
    if SectionOf(st, l).t.via.Settlement? {
      SettledBySettler(st, l, f);
      NoInterruptOfSettled(ephemeral, ls, f);
    }
  }

  lemma ClosePublishesQuiet(st: State, l: Label, f: Fid)
    requires Inv(st) && Publishes(st, l, f) && st.s.fg[f].kind.Agent?
    ensures SectionOf(st, l).t.via.Closing? ==> st.s.callbacks == map[]
  {
  }

  lemma PublisherPastJoin(st: State, l: Label, f: Fid)
    requires Inv(st) && Cycles(st) && Publishes(st, l, f) && LiveRun(st.s, f)
    ensures PastJoin(st.s, PumpOf(st.pumps, GenOf(st.s, f)), f) || st.s.callbacks == map[]
  {
    if l.PumpL? { assert PumpClean(st.s, l.g, st.pumps[l.g]); }
  }

  lemma SettledBySettler(st: State, l: Label, f: Fid)
    requires Inv(st) && Publishes(st, l, f) && st.s.fg[f].kind.Agent? && SectionOf(st, l).t.via.Settlement?
    ensures Settlers(st, f)
  {
    if l.PumpL? { assert PumpSound(st.s, st.pumps[l.g]); }
  }

  /******* Close, death and the stream *******/

  /** After close has returned nothing is active, nothing is opening and nothing can open, whatever runs on. */
  lemma ClosedStaysFenced(ephemeral: bool, ls: seq<Label>, g: Gen)
    requires Legal(Init(ephemeral), ls) && Run(Init(ephemeral), ls).close.rung == Closed
    ensures var st := Run(Init(ephemeral), ls);
            !st.s.active && st.s.opener.None? && !Enabled(st, OpenCheck(g))
  {
    Reached(ephemeral, ls);
    ClosedIsFenced(Run(Init(ephemeral), ls), g);
  }

  lemma ClosedIsFenced(st: State, g: Gen)
    requires Base(st) && Streams(st) && st.close.rung == Closed
    ensures !st.s.active && st.s.opener.None? && !Enabled(st, OpenCheck(g))
  {
  }

  lemma {:induction false} CutGrows(st: State, ls: seq<Label>, g: Gen)
    requires Legal(st, ls) && g in st.cut
    ensures g in Run(st, ls).cut
    decreases |ls|
  {
    if ls != [] { CutGrows(Next(st, ls[0]), ls[1..], g); }
  }

  /** runtimeEnded leaves its generation's stream active exactly when a close is under way; otherwise no stream of
      that generation is ever active again. */
  lemma EndedGenerationIsCutOff(ephemeral: bool, ls: seq<Label>, g: Gen, more: seq<Label>)
    requires Legal(Init(ephemeral), ls)
    requires var st := Run(Init(ephemeral), ls);
             Enabled(st, PumpL(g, UnbindRuntime)) && st.s.runtime == Some(g) && Legal(Next(st, PumpL(g, UnbindRuntime)), more)
    ensures var st := Run(Init(ephemeral), ls);
            var unbound := Next(st, PumpL(g, UnbindRuntime));
            var later := Run(unbound, more);
            && (unbound.s.active <==> st.s.active && st.s.closing)
            && (!st.s.closing ==> !(later.s.active && later.s.streamGen == Some(g)))
  {
    Reached(ephemeral, ls);
    var st := Run(Init(ephemeral), ls);
    var unbound := Next(st, PumpL(g, UnbindRuntime));
    StepKeeps(st, PumpL(g, UnbindRuntime));
    RunKeeps(unbound, more);
    if !st.s.closing {
      CutGrows(unbound, more, g);
      assert CutOff(Run(unbound, more).s, Run(unbound, more).pumps, g);
    }
  }

  /******* Processes *******/

  lemma SmallOwners(s: Shared, launch: Launch, orphan: Option<Gen>, alive: set<Gen>)
    requires alive <= Owners(s, launch, orphan)
    ensures |alive| <= 1
  {
    var owners := Owners(s, launch, orphan);
    if owners == {} {
      assert alive == {};
    } else {
      var g :| g in owners;
      assert owners == {g} && (alive == {} || alive == {g});
    }
  }

  /** At most one process lives, and none while a relaunch repairs the transcript and starts the next. */
  lemma OneProcess(ephemeral: bool, ls: seq<Label>)
    requires Legal(Init(ephemeral), ls)
    ensures var st := Run(Init(ephemeral), ls);
            && |st.alive| <= 1
            && (st.launch.Repairing? ==> st.alive == {})
            && (Enabled(st, LaunchL(Start)) ==> st.alive == {})
  {
    Reached(ephemeral, ls);
    var st := Run(Init(ephemeral), ls);
    SmallOwners(st.s, st.launch, st.orphan, st.alive);
  }

  /******* Cancellation *******/

  lemma PromptKeepsClaim(st: State, step: PromptStep, f: Fid)
    requires Inv(st) && Enabled(st, PromptL(step)) && f in st.s.fg && st.s.fg[f].claimed.Some?
    ensures var x := PromptSection(st.s, st.gate, st.launch, step);
            !Settles(x, f) || x.Begin? || x.Idle?
  {
  }

  lemma OthersKeepClaims(st: State, l: Label, f: Fid)
    requires Inv(st) && Enabled(st, l) && !l.PumpL? && !l.PromptL? && f in st.s.fg && st.s.fg[f].kind.Prompted?
    ensures !Settles(SectionOf(st, l), f)
  {
  }

  lemma ClaimUntouched(s: Shared, x: Section, f: Fid)
    requires f in s.fg && (!Settles(x, f) || x.Begin? || x.Idle?)
    ensures Of(Apply(s, x), f).claimed == s.fg[f].claimed && Of(Apply(s, x), f).verdict == s.fg[f].verdict
  {
    if !Settles(x, f) { OthersSpare(s, x, f); }
  }

  /** Once a prompt's verdict is claimed no step changes the claim or the verdict. */
  lemma ClaimHolds(st: State, l: Label, f: Fid)
    requires Inv(st) && Enabled(st, l) && f in st.s.fg && st.s.fg[f].kind.Prompted? && st.s.fg[f].claimed.Some?
    ensures Of(Apply(st.s, SectionOf(st, l)), f).claimed == st.s.fg[f].claimed
    ensures Of(Apply(st.s, SectionOf(st, l)), f).verdict == st.s.fg[f].verdict
  {
    match l {
      case PumpL(g, step) => PumpSparesTurns(st, g, step, f);
      case PromptL(step) => PromptKeepsClaim(st, step, f);
      case _ => OthersKeepClaims(st, l, f);
    }
    ClaimUntouched(st.s, SectionOf(st, l), f);
  }

  lemma {:induction false} ClaimedForGood(st: State, ls: seq<Label>, f: Fid)
    requires Inv(st) && Legal(st, ls) && f in st.s.fg && st.s.fg[f].kind.Prompted? && st.s.fg[f].claimed.Some?
    ensures f in Run(st, ls).s.fg
    ensures Run(st, ls).s.fg[f].claimed == st.s.fg[f].claimed && Run(st, ls).s.fg[f].verdict == st.s.fg[f].verdict
    decreases |ls|
  {
    if ls != [] {
      StepEvolves(st, ls[0]);
      assert Ages(st.s.fg[f], Next(st, ls[0]).s.fg[f]);
      ClaimHolds(st, ls[0], f);
      StepKeeps(st, ls[0]);
      ClaimedForGood(Next(st, ls[0]), ls[1..], f);
    }
  }

  lemma OwnerKeepsClaim(st: State, g: Gen, step: PumpStep, f: Fid)
    requires Stepping(st, PumpL(g, step)) && LiveRun(st.s, f) && st.s.fg[f].claimed.Some?
    requires QuietRun(st.s, st.pumps, f) && RunClean(st.s, st.pumps, f) && PumpClean(st.s, g, st.pumps[g])
    ensures var x := PumpSection(st.s, st.pumps[g], g, step); !Settles(x, f) || x.Idle?
  {
  }

  lemma OthersSpareAgents(st: State, l: Label, f: Fid)
    requires Base(st) && Enabled(st, l) && !l.PumpL? && f in st.s.fg && st.s.fg[f].kind.Agent?
    ensures var x := SectionOf(st, l); !Settles(x, f) || x.Idle?
  {
  }

  lemma LiveClaimKept(st: State, l: Label, f: Fid)
    requires Stepping(st, l) && LiveRun(st.s, f) && st.s.fg[f].claimed.Some? && QuietRun(st.s, st.pumps, f)
    ensures var x := SectionOf(st, l); !Settles(x, f) || x.Idle?
  {
    assert RunClean(st.s, st.pumps, f);
    if l.PumpL? {
      assert PumpClean(st.s, l.g, st.pumps[l.g]);
      OwnerKeepsClaim(st, l.g, l.pump, f);
    } else {
      OthersSpareAgents(st, l, f);
    }
  }

  lemma {:induction false} LiveClaimStays(st: State, ls: seq<Label>, f: Fid)
    requires Inv(st) && Cycles(st) && Quieted(st) && f in st.s.fg && st.s.fg[f].kind.Agent? && st.s.fg[f].claimed.Some?
    requires Legal(st, ls) && Clean(Run(st, ls)) && Live(Run(st, ls).s, f)
    ensures LiveRun(st.s, f)
    ensures Run(st, ls).s.fg[f].claimed == st.s.fg[f].claimed && Run(st, ls).s.fg[f].verdict == st.s.fg[f].verdict
    decreases |ls|
  {
    if ls != [] {
      var next := Next(st, ls[0]);
      StaysClean(st, ls);
      StaysClean(next, ls[1..]);
      RunKeepsQuiet(st, [ls[0]]);
      assert [ls[0]][1..] == [] && Run(st, [ls[0]]) == next;
      StepEvolves(st, ls[0]);
      assert NotAhead(st.s, f) && Ages(st.s.fg[f], next.s.fg[f]);
      LiveClaimStays(next, ls[1..], f);
      LiveBefore(st.s, next.s, f);
      LiveClaimKept(st, ls[0], f);
      ClaimUntouched(st.s, SectionOf(st, ls[0]), f);
    }
  }

  /** The same of an agent run for as long as its stream is live, given careful samples and completed joins. */
  lemma AgentClaimedForGood(ephemeral: bool, ls: seq<Label>, more: seq<Label>, f: Fid)
    requires Legal(Init(ephemeral), ls) && Legal(Run(Init(ephemeral), ls), more)
    requires Clean(Run(Run(Init(ephemeral), ls), more)) && LiveRun(Run(Run(Init(ephemeral), ls), more).s, f)
    requires var s := Run(Init(ephemeral), ls).s; f in s.fg && s.fg[f].claimed.Some?
    ensures var v := Run(Init(ephemeral), ls).s.fg[f];
            var w := Run(Run(Init(ephemeral), ls), more).s.fg[f];
            w.claimed == v.claimed && w.verdict == v.verdict
  {
    var st := Run(Init(ephemeral), ls);
    StaysClean(st, more);
    ReachedQuiet(ephemeral, ls);
    RunOnwards(st, more, f);
    LiveClaimStays(st, more, f);
  }

  /** The claim reads the cancellation of that moment. */
  predicate CancelPending(v: Foreground) {
    v.cancelled && v.claimed != Some(false)
  }

  lemma SectionKeepsPending(s: Shared, x: Section, f: Fid)
    requires Fits(s, x) && f in s.fg && CancelPending(s.fg[f])
    ensures f in Runs(s, x) && CancelPending(Runs(s, x)[f])
  {
    if Changed(s, x).Some? && Changed(s, x).value.f == f {
      ChangeAges(s, x);
      assert x.Claim? || Changed(s, x).value.v.claimed == s.fg[f].claimed;
    }
  }

  lemma CancelStaysPending(st: State, l: Label, f: Fid)
    requires Inv(st) && Enabled(st, l) && f in st.s.fg && CancelPending(st.s.fg[f])
    ensures f in Apply(st.s, SectionOf(st, l)).fg && CancelPending(Apply(st.s, SectionOf(st, l)).fg[f])
  {
    StepFits(st, l);
    SectionKeepsPending(st.s, SectionOf(st, l), f);
  }

  lemma {:induction false} CancelReachesClaim(st: State, ls: seq<Label>, f: Fid)
    requires Inv(st) && Legal(st, ls) && f in st.s.fg && CancelPending(st.s.fg[f])
    ensures f in Run(st, ls).s.fg && CancelPending(Run(st, ls).s.fg[f])
    decreases |ls|
  {
    if ls != [] {
      CancelStaysPending(st, ls[0], f);
      StepKeeps(st, ls[0]);
      CancelReachesClaim(Next(st, ls[0]), ls[1..], f);
    }
  }

  lemma CancelStrikes(st: State, cid: Cid, f: Fid)
    requires Inv(st) && Enabled(st, CancelL(cid)) && CancelTakesEffect(st.s) && Slot(st.s) == Some(f)
    ensures Inv(Next(st, CancelL(cid))) && f in Next(st, CancelL(cid)).s.fg && CancelPending(Next(st, CancelL(cid)).s.fg[f])
  {
    StepKeeps(st, CancelL(cid));
  }

  lemma PendingDecides(st: State, f: Fid)
    requires Inv(st) && f in st.s.fg && CancelPending(st.s.fg[f]) && st.s.fg[f].claimed.Some?
    ensures var v := st.s.fg[f]; v.claimed == Some(true) && (!(v.kind.Prompted? && v.commitFailed) ==> v.verdict == Some(Cancelled))
  {
    assert RunSound(st.s.fg[f], st.close);
    KnownFlag(st.s.fg[f].claimed);
  }

  /** A cancel that takes effect before the claim decides it: cancelled, however the native run ended, unless the
      commit failed. */
  lemma CancelBeforeClaimDecides(ephemeral: bool, ls: seq<Label>, cid: Cid, more: seq<Label>, f: Fid)
    requires Legal(Init(ephemeral), ls)
    requires var st := Run(Init(ephemeral), ls);
             && Enabled(st, CancelL(cid)) && CancelTakesEffect(st.s) && Slot(st.s) == Some(f)
             && Legal(Next(st, CancelL(cid)), more)
    ensures var v := Of(Run(Next(Run(Init(ephemeral), ls), CancelL(cid)), more).s, f);
            v.claimed.Some? ==>
              && v.claimed == Some(true)
              && (!(v.kind.Prompted? && v.commitFailed) ==> v.verdict == Some(Cancelled))
  {
    Reached(ephemeral, ls);
    var st := Run(Init(ephemeral), ls);
    var struck := Next(st, CancelL(cid));
    CancelStrikes(st, cid, f);
    CancelReachesClaim(struck, more, f);
    RunKeeps(struck, more);
    if Of(Run(struck, more).s, f).claimed.Some? { PendingDecides(Run(struck, more), f); }
  }

  /** A cancel after the claim changes nothing at all; one that takes effect touches no run but the one in the slot. */
  lemma CancelAfterClaimIsLost(st: State, cid: Cid)
    requires Enabled(st, CancelL(cid)) && Slot(st.s).Some?
    ensures Of(st.s, Slot(st.s).value).claimed.Some? ==> Next(st, CancelL(cid)).s == st.s
    ensures forall h :: h in st.s.fg && Some(h) != Slot(st.s) ==> h in Next(st, CancelL(cid)).s.fg && Next(st, CancelL(cid)).s.fg[h] == st.s.fg[h]
  {
  }
}
