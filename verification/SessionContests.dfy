/**
 When one more sample lets an agent run end twice. A pump that samples a live cycle whose generation is not its own
 contests that run with the pump that opened it; whether both can then end it depends on where the owner stands.
 */
module SessionContests {
  import opened Options
  import opened SessionState
  import opened SessionMachine
  import opened SessionFacts
  import opened SessionSettlement
  import opened SessionProcesses
  import opened SessionCycles
  import opened SessionSlots
  import opened SessionScenes

  /** Every step of the run is careful. */
  ghost predicate CarefulRun(st: State, ls: seq<Label>)
    requires Legal(st, ls)
    decreases |ls|
  {
    ls == [] || (Careful(st, ls[0]) && CarefulRun(Next(st, ls[0]), ls[1..]))
  }

  ghost predicate Reaches(st: State, end: State) {
    exists ls :: Leads(st, ls, end) && CarefulRun(st, ls)
  }

  ghost predicate CanEndTwice(st: State, f: Fid) {
    exists end :: Reaches(st, end) && |Of(end.s, f).published| >= 2
  }

  lemma {:induction false} CarefulJoin(st: State, ls: seq<Label>, more: seq<Label>)
    requires Legal(st, ls) && CarefulRun(st, ls) && Legal(Run(st, ls), more) && CarefulRun(Run(st, ls), more)
    ensures Legal(st, ls + more) && CarefulRun(st, ls + more)
    decreases |ls|
  {
    RunsJoin(st, ls, more);
    if ls == [] {
      assert ls + more == more;
    } else {
      CarefulJoin(Next(st, ls[0]), ls[1..], more);
      assert (ls + more)[1..] == ls[1..] + more;
    }
  }

  lemma ReachesOn(st: State, mid: State, end: State)
    requires Reaches(st, mid) && Reaches(mid, end)
    ensures Reaches(st, end)
  {
    var ls :| Leads(st, ls, mid) && CarefulRun(st, ls);
    var more :| Leads(mid, more, end) && CarefulRun(mid, more);
    CarefulJoin(st, ls, more);
    RunsJoin(st, ls, more);
    assert Leads(st, ls + more, end);
  }

  lemma ReachesItself(st: State)
    ensures Reaches(st, st)
  {
    assert Leads(st, [], st) && CarefulRun(st, []);
  }

  lemma ReachesNext(st: State, l: Label)
    requires Enabled(st, l) && Careful(st, l)
    ensures Reaches(st, Next(st, l))
  {
    var ls := One(st, l, Next(st, l));
    assert ls == [l] && [l][1..] == [];
    assert CarefulRun(Next(st, l), []);
    assert CarefulRun(st, ls);
  }

  lemma {:induction false} CarefulRunIsClean(st: State, ls: seq<Label>)
    requires Legal(st, ls) && CarefulRun(st, ls) && Clean(st)
    ensures Clean(Run(st, ls))
    decreases |ls|
  {
    if ls != [] { CarefulRunIsClean(Next(st, ls[0]), ls[1..]); }
  }

  /******* A pump settles a live run *******/

  predicate Onward(stage: Stage) {
    stage != Fencing && stage != Dropping && stage != Clearing
  }

  function StagesLeft(stage: Stage): nat {
    match stage
    case Mark => 6
    case Join => 5
    case Judging => 4
    case Committing => 3
    case Claiming => 2
    case Publishing => 1
    case _ => 0
  }

  lemma StageLeaves(s: Shared, f: Fid, g: Gen, stage: Stage)
    requires LiveRun(s, f) && Onward(stage)
    ensures var t := Apply(s, StageSection(s, f, g, stage, Success, true));
            && LiveRun(t, f) && t.callbacks == s.callbacks
            && |t.fg[f].published| == |s.fg[f].published| + if stage == Publishing then 1 else 0
    ensures var next := NextStage(s, f, stage, true);
            StagesLeft(next) == StagesLeft(stage) - 1 && (if stage == Publishing then next == Clearing else Onward(next))
  {
  }

  lemma SettlesNext(st: State, g: Gen, f: Fid, stage: Stage) returns (next: State)
    requires g in st.pumps && st.pumps[g] == Settling(f, stage) && Onward(stage)
    requires LiveRun(st.s, f) && st.s.callbacks == map[]
    ensures Reaches(st, next) && next.pumps == st.pumps[g := Settling(f, NextStage(st.s, f, stage, true))]
    ensures LiveRun(next.s, f) && next.s.callbacks == map[]
    ensures |next.s.fg[f].published| == |st.s.fg[f].published| + if stage == Publishing then 1 else 0
    ensures var to := NextStage(st.s, f, stage, true);
            StagesLeft(to) < StagesLeft(stage) && (if stage == Publishing then to == Clearing else Onward(to))
  {
    var l := PumpL(g, Settle(Success, true));
    next := Next(st, l);
    StageLeaves(st.s, f, g, stage);
    ReachesNext(st, l);
  }

  /** Its commit succeeding, a pump that settles a live run publishes its terminal event. */
  lemma {:induction false} SettlesOn(st: State, g: Gen, f: Fid, stage: Stage) returns (end: State)
    requires g in st.pumps && st.pumps[g] == Settling(f, stage) && Onward(stage)
    requires LiveRun(st.s, f) && st.s.callbacks == map[]
    ensures Reaches(st, end) && end.pumps == st.pumps[g := Settling(f, Clearing)]
    ensures LiveRun(end.s, f) && end.s.callbacks == map[] && |end.s.fg[f].published| == |st.s.fg[f].published| + 1
    decreases StagesLeft(stage)
  {
    var next := SettlesNext(st, g, f, stage);
    if stage == Publishing {
      end := next;
    } else {
      end := SettlesOn(next, g, f, NextStage(st.s, f, stage, true));
      assert next.pumps[g := Settling(f, Clearing)] == st.pumps[g := Settling(f, Clearing)];
      ReachesOn(st, next, end);
    }
  }

  lemma WorkSettles(st: State, g: Gen, f: Fid) returns (end: State)
    requires g in st.pumps && st.pumps[g] == Work(f) && LiveRun(st.s, f) && st.s.callbacks == map[]
    ensures Reaches(st, end) && end.pumps == st.pumps[g := Settling(f, Clearing)]
    ensures LiveRun(end.s, f) && end.s.callbacks == map[] && |end.s.fg[f].published| == |st.s.fg[f].published| + 1
  {
    var next := Next(st, PumpL(g, SettleRun));
    assert next.s == st.s;
    ReachesNext(st, PumpL(g, SettleRun));
    end := SettlesOn(next, g, f, Mark);
    assert next.pumps[g := Settling(f, Clearing)] == st.pumps[g := Settling(f, Clearing)];
    ReachesOn(st, next, end);
  }

  /** Two pumps at work on one live run can both end it. */
  lemma TwoSettle(st: State, g: Gen, h: Gen, f: Fid)
    requires g != h && g in st.pumps && h in st.pumps && st.pumps[g] == Work(f) && st.pumps[h] == Work(f)
    requires LiveRun(st.s, f) && st.s.callbacks == map[]
    ensures CanEndTwice(st, f)
  {
    var a := WorkSettles(st, g, f);
    var b := WorkSettles(a, h, f);
    ReachesOn(st, a, b);
  }

  /******* Callbacks finish *******/

  function WithCallbacks(st: State, callbacks: map<Cid, Callback>): State {
    st.(s := st.s.(callbacks := callbacks))
  }

  lemma {:induction false} Drains(st: State) returns (end: State)
    ensures Reaches(st, end) && end == WithCallbacks(st, map[])
    decreases |st.s.callbacks|
  {
    if st.s.callbacks == map[] {
      ReachesItself(st);
      end := st;
    } else {
      var cid :| cid in st.s.callbacks;
      var next := FinishesOne(st, cid);
      FewerCallbacks(st.s.callbacks, cid);
      end := Drains(next);
      ReachesOn(st, next, end);
    }
  }

  lemma FewerCallbacks(callbacks: map<Cid, Callback>, cid: Cid)
    requires cid in callbacks
    ensures |callbacks - {cid}| < |callbacks|
  {
    assert callbacks.Keys == (callbacks - {cid}).Keys + {cid};
  }

  lemma CallbackSections(s: Shared, cid: Cid)
    requires cid in s.callbacks
    ensures Apply(s, Section.Finish(cid)) == s.(callbacks := s.callbacks - {cid})
    ensures s.callbacks[cid].Dialog? ==>
              Apply(s, Section.Resolve(cid)) == s.(callbacks := s.callbacks[cid := Dialog(s.callbacks[cid].f, false)])
  {
  }

  lemma LeavesGroup(st: State, cid: Cid) returns (end: State)
    requires cid in st.s.callbacks && (st.s.callbacks[cid].Dialog? ==> !st.s.callbacks[cid].pending)
    ensures Reaches(st, end) && end == WithCallbacks(st, st.s.callbacks - {cid})
  {
    CallbackSections(st.s, cid);
    end := Next(st, CallbackDone(cid));
    ReachesNext(st, CallbackDone(cid));
  }

  lemma FinishesOne(st: State, cid: Cid) returns (end: State)
    requires cid in st.s.callbacks
    ensures Reaches(st, end) && end == WithCallbacks(st, st.s.callbacks - {cid})
  {
    if st.s.callbacks[cid].Dialog? {
      CallbackSections(st.s, cid);
      var ready := WithCallbacks(st, st.s.callbacks[cid := Dialog(st.s.callbacks[cid].f, false)]);
      assert ready == Next(st, ResolveL(cid));
      ReachesNext(st, ResolveL(cid));
      end := LeavesGroup(ready, cid);
      assert ready.s.callbacks - {cid} == st.s.callbacks - {cid};
      ReachesOn(st, ready, end);
    } else {
      end := LeavesGroup(st, cid);
    }
  }

  /******* The owner comes to its run *******/

  ghost function Above(fids: set<Fid>): (bound: Fid)
    ensures forall f :: f in fids ==> f < bound
  {
    if fids == {} then 0
    else
      var f :| f in fids;
      var rest := Above(fids - {f});
      assert forall x :: x in fids ==> x == f || x in fids - {f};
      if f < rest then rest else f + 1
  }

  /** Where the owner of the run in the slot can stand when nothing has been fenced. */
  predicate Stands(p: Pump, f: Fid, published: bool) {
    || p.Reading? || p.Checked? || p.Opening? || p.Minted? || p.Delivering? || p.Work?
    || (p.Reserved? && p.f == f)
    || (p.Settling? && p.f == f && (Onward(p.stage) || (p.stage == Clearing && published)))
  }

  predicate Owned(st: State, h: Gen, f: Fid) {
    && st.s.runtime == Some(h) && h in st.pumps
    && st.s.turn.None? && st.s.cycle == Some(f) && LiveRun(st.s, f)
    && Stands(st.pumps[h], f, st.s.fg[f].published != [])
  }

  /** How far the owner is from working on its run. */
  function Distance(p: Pump, f: Fid): nat {
    match p
    case Opening => 5
    case Minted(_) => 4
    case Delivering(_) => 3
    case Work(x) => if x == f then 0 else 3
    case Reading => 2
    case Checked => 1
    case Reserved(_) => 3
    case _ => 0
  }

  ghost function OwnerStep(st: State, p: Pump): PumpStep {
    match p
    case Opening => PumpStep.Mint(Above(st.s.fg.Keys))
    case Minted(_) => PumpStep.Reserve
    case Delivering(_) => Delivered
    case Work(_) => FinishEvent
    case Reading => Check
    case Checked => Look(true)
    case _ => Recheck
  }

  lemma OwnerSteps(st: State, h: Gen, f: Fid)
    requires Owned(st, h, f) && Distance(st.pumps[h], f) > 0
    ensures var step := OwnerStep(st, st.pumps[h]);
            && Enabled(st, PumpL(h, step)) && Careful(st, PumpL(h, step)) && OwnerSection(st.s, SectionOf(st, PumpL(h, step)))
    ensures var p := PumpNext(st.s, st.pumps[h], h, OwnerStep(st, st.pumps[h]));
            Stands(p, f, st.s.fg[f].published != []) && Distance(p, f) < Distance(st.pumps[h], f) && !p.Settling?
  {
  }

  predicate OwnerSection(s: Shared, x: Section) {
    x.NoSection? || x.Reserve? || (x.Mint? && x.f !in s.fg)
  }

  lemma OwnerSectionSpares(s: Shared, x: Section, f: Fid)
    requires OwnerSection(s, x) && s.cycle == Some(f) && LiveRun(s, f)
    ensures var t := Apply(s, x);
            && t.runtime == s.runtime && t.turn == s.turn && t.cycle == Some(f) && t.closing == s.closing
            && t.callbacks == s.callbacks && LiveRun(t, f) && t.fg[f] == s.fg[f]
  {
  }

  lemma OwnerNears(st: State, h: Gen, f: Fid) returns (next: State)
    requires Owned(st, h, f) && Distance(st.pumps[h], f) > 0
    ensures Reaches(st, next) && Owned(next, h, f) && Distance(next.pumps[h], f) < Distance(st.pumps[h], f)
    ensures next.s.callbacks == st.s.callbacks && next.s.fg[f] == st.s.fg[f] && next.s.closing == st.s.closing
    ensures next.pumps == st.pumps[h := next.pumps[h]] && !next.pumps[h].Settling?
  {
    var l := PumpL(h, OwnerStep(st, st.pumps[h]));
    OwnerSteps(st, h, f);
    OwnerSectionSpares(st.s, SectionOf(st, l), f);
    next := Next(st, l);
    ReachesNext(st, l);
  }

  lemma {:induction false} OwnerArrives(st: State, h: Gen, f: Fid) returns (end: State)
    requires Owned(st, h, f)
    ensures Reaches(st, end) && Owned(end, h, f) && Distance(end.pumps[h], f) == 0
    ensures end.s.callbacks == st.s.callbacks && end.s.fg[f] == st.s.fg[f] && end.s.closing == st.s.closing
    ensures end.pumps == st.pumps[h := end.pumps[h]]
    ensures !st.pumps[h].Settling? ==> end.pumps[h] == Work(f)
    decreases Distance(st.pumps[h], f)
  {
    if Distance(st.pumps[h], f) == 0 {
      ReachesItself(st);
      end := st;
    } else {
      var next := OwnerNears(st, h, f);
      end := OwnerArrives(next, h, f);
      ReachesOn(st, next, end);
    }
  }

  /** The owner ends its run, or is past doing so. */
  lemma OwnerEnds(st: State, h: Gen, f: Fid) returns (end: State)
    requires h in st.pumps && LiveRun(st.s, f) && st.s.callbacks == map[] && st.s.fg[f].published != []
    requires st.pumps[h] == Work(f) || (st.pumps[h].Settling? && st.pumps[h].f == f && Onward(st.pumps[h].stage))
    ensures Reaches(st, end) && |Of(end.s, f).published| >= 2
  {
    if st.pumps[h] == Work(f) {
      end := WorkSettles(st, h, f);
    } else {
      end := SettlesOn(st, h, f, st.pumps[h].stage);
    }
  }

  lemma BothEndArrived(st: State, g: Gen, h: Gen, f: Fid)
    requires g != h && g in st.pumps && st.pumps[g] == Work(f) && st.s.callbacks == map[]
    requires Owned(st, h, f) && Distance(st.pumps[h], f) == 0
    ensures CanEndTwice(st, f)
  {
    var once := WorkSettles(st, g, f);
    if st.pumps[h] != Settling(f, Clearing) {
      var twice := OwnerEnds(once, h, f);
      ReachesOn(st, once, twice);
    }
  }

  /** Two pumps at work on one live run, neither of which has met a failed commit, can both end it. */
  lemma BothEnd(st: State, g: Gen, h: Gen, f: Fid)
    requires g != h && g in st.pumps && st.pumps[g] == Work(f) && Owned(st, h, f)
    ensures CanEndTwice(st, f)
  {
    var a := Drains(st);
    var b := OwnerArrives(a, h, f);
    BothEndArrived(b, g, h, f);
    ReachesOn(st, a, b);
    EndsTwiceFrom(st, b, f);
  }

  lemma EndsTwiceFrom(st: State, mid: State, f: Fid)
    requires Reaches(st, mid) && CanEndTwice(mid, f)
    ensures CanEndTwice(st, f)
  {
    var end :| Reaches(mid, end) && |Of(end.s, f).published| >= 2;
    ReachesOn(st, mid, end);
  }

  /******* A run nobody but the sampler can end *******/

  /** The owner is settling the run, on its bound generation. */
  ghost predicate OwnerSettles(st: State, h: Gen, f: Fid) {
    && h in st.pumps && st.pumps[h].Settling? && st.pumps[h].f == f && st.s.runtime == Some(h)
    && !(st.gate.Prompting? && st.gate.prompt.Closure? && st.gate.prompt.stage == Dropping)
    && (st.s.closing ==> st.close.rt == Some(h) && (st.close.rung == JoinRung || st.close.rung == StopRung))
  }

  /** The owner's commit has failed and it is about to fence. */
  ghost predicate Fences(st: State, h: Gen, f: Fid) {
    OwnerSettles(st, h, f) && st.pumps[h].stage == Fencing
  }

  /** The owner has finished, and the close has failed to commit, so it publishes nothing. */
  ghost predicate Forgone(st: State, h: Gen) {
    st.s.runtime.None? && st.s.closing && st.close.committed == Some(false) && PumpOf(st.pumps, h).Done?
  }

  /** The sampler is the only pump that may yet publish the run, but for the owner that is about to fence. */
  ghost predicate Losing(st: State, g: Gen, h: Gen, f: Fid) {
    && (Fences(st, h, f) || Forgone(st, h))
    && (forall x :: x in st.pumps && x != g && x != h ==> !MayPublish(st.pumps[x], f))
    && g in st.pumps && (st.pumps[g].Work? || st.pumps[g].Settling? || !MayPublish(st.pumps[g], f))
    && (Of(st.s, f).published != [] ==> !MayPublish(st.pumps[g], f))
  }

  ghost predicate Doomed(st: State, g: Gen, h: Gen, f: Fid) {
    && Inv(st) && g != h && f in st.s.fg && st.s.fg[f].kind == Agent(h) && |st.s.fg[f].published| <= 1
    && (Live(st.s, f) ==> Losing(st, g, h, f))
  }

  /** A careful step that leaves the run live. */
  ghost predicate Spared(st: State, l: Label, g: Gen, h: Gen, f: Fid) {
    Doomed(st, g, h, f) && Enabled(st, l) && Careful(st, l) && LiveRun(st.s, f) && Live(Apply(st.s, SectionOf(st, l)), f)
  }

  lemma OwnerWaits(st: State, l: Label, g: Gen, h: Gen, f: Fid)
    requires Spared(st, l, g, h, f)
    ensures !(l.PumpL? && l.g == h) && PumpOf(NextPumps(st, l), h) == PumpOf(st.pumps, h)
    ensures h in st.pumps ==> h in NextPumps(st, l)
  {
    PumpMoves(st, l, h);
  }

  lemma PumpKeepsOther(st: State, x: Gen, step: PumpStep, h: Gen)
    requires Enabled(st, PumpL(x, step)) && st.s.runtime == Some(h) && x != h
    ensures Runtime(st.s, PumpSection(st.s, st.pumps[x], x, step)) == Some(h)
  {
  }

  lemma LaunchKeepsOwner(st: State, step: LaunchStep, h: Gen)
    requires LaunchSound(st.s, st.launch, st.pumps, st.next) && Enabled(st, LaunchL(step)) && Careful(st, LaunchL(step))
    requires st.s.runtime == Some(h) && !PumpOf(st.pumps, h).Done?
    ensures Runtime(st.s, LaunchSection(st, step)) == Some(h)
  {
  }

  lemma CloseKeepsOwner(st: State, step: CloseStep, h: Gen)
    requires Enabled(st, CloseL(step)) && Careful(st, CloseL(step)) && st.s.runtime == Some(h) && !PumpOf(st.pumps, h).Done?
    ensures Runtime(st.s, CloseSection(st.close, step)) == Some(h)
  {
  }

  /** A prompt comes to drop its generation by fencing. */
  lemma PromptFencesFirst(st: State, step: PromptStep, f: Fid)
    requires Enabled(st, PromptL(step)) && Live(Apply(st.s, PromptSection(st.s, st.gate, st.launch, step)), f)
    ensures var gate := PromptNext(st.s, st.gate, st.launch, step);
            !(gate.Prompting? && gate.prompt.Closure? && gate.prompt.stage == Dropping)
  {
  }

  lemma BoundBeside(st: State, l: Label, h: Gen, f: Fid)
    requires Inv(st) && Enabled(st, l) && Careful(st, l) && OwnerSettles(st, h, f) && !(l.PumpL? && l.g == h)
    ensures Runtime(st.s, SectionOf(st, l)) == Some(h)
  {
    match l {
      case PumpL(x, step) => PumpKeepsOther(st, x, step, h);
      case PromptL(step) =>
      case LaunchL(step) => LaunchKeepsOwner(st, step, h);
      case CloseL(step) => CloseKeepsOwner(st, step, h);
      case _ =>
    }
  }

  lemma CloseWaits(st: State, l: Label, h: Gen, f: Fid)
    requires Base(st) && Enabled(st, l) && Careful(st, l) && OwnerSettles(st, h, f)
    ensures var c := CloseAfter(st, l);
            Apply(st.s, SectionOf(st, l)).closing ==> c.rt == Some(h) && (c.rung == JoinRung || c.rung == StopRung)
  {
    if l.CloseL? { CloseStepWaits(st, l.close, h, f); } else { assert !SectionOf(st, l).StartClose?; }
  }

  lemma CloseStepWaits(st: State, step: CloseStep, h: Gen, f: Fid)
    requires Base(st) && Enabled(st, CloseL(step)) && Careful(st, CloseL(step)) && OwnerSettles(st, h, f)
    ensures var c := CloseNext(st.s, st.close, step); c.rt == Some(h) && (c.rung == JoinRung || c.rung == StopRung)
  {
  }

  lemma SettlesBeside(st: State, l: Label, h: Gen, f: Fid)
    requires Inv(st) && Enabled(st, l) && Careful(st, l) && OwnerSettles(st, h, f) && !(l.PumpL? && l.g == h)
    requires Live(Apply(st.s, SectionOf(st, l)), f)
    ensures OwnerSettles(Next(st, l), h, f) && Next(st, l).pumps[h] == st.pumps[h]
  {
    PumpMoves(st, l, h);
    BoundBeside(st, l, h, f);
    CloseWaits(st, l, h, f);
    if l.PromptL? { PromptFencesFirst(st, l.prompt, f); }
  }

  lemma ForgoneStays(st: State, l: Label, h: Gen)
    requires Base(st) && Processes(st) && CloseSound(st.close) && Enabled(st, l) && Forgone(st, h)
    ensures Forgone(Next(st, l), h)
  {
    NoneBound(st, l);
    DoneStays(st, l, h);
    CommitForgone(st, l);
  }

  lemma NoneBound(st: State, l: Label)
    requires Enabled(st, l) && st.s.runtime.None? && st.s.closing
    ensures Runtime(st.s, SectionOf(st, l)).None?
  {
  }

  lemma CommitForgone(st: State, l: Label)
    requires CloseSound(st.close) && Enabled(st, l) && st.s.closing && st.close.committed == Some(false)
    ensures CloseAfter(st, l).committed == Some(false)
  {
  }

  /** A pump that does not have a run of the slot comes to have it only by a sample, an end of its own generation, or as
      its new one. */
  lemma PumpTakesUp(st: State, x: Gen, step: PumpStep, f: Fid)
    requires Enabled(st, PumpL(x, step)) && f in st.s.fg && !MayPublish(st.pumps[x], f)
    requires st.s.runtime != Some(x) && (st.s.cycle == Some(f) ==> Live(st.s, f)) && Careful(st, PumpL(x, step))
    requires IsTurn(st.s.fg, st.s.turn) && st.s.fg[f].kind.Agent?
    ensures !MayPublish(PumpNext(st.s, st.pumps[x], x, step), f)
  {
  }

  lemma OtherMoves(st: State, x: Gen, step: PumpStep, g: Gen, h: Gen, f: Fid)
    requires Spared(st, PumpL(x, step), g, h, f) && x != g
    ensures !MayPublish(PumpNext(st.s, st.pumps[x], x, step), f)
  {
    OwnerWaits(st, PumpL(x, step), g, h, f);
    assert !MayPublish(st.pumps[x], f);
    PumpTakesUp(st, x, step, f);
  }

  lemma OthersKeepOff(st: State, l: Label, g: Gen, h: Gen, f: Fid, x: Gen)
    requires Spared(st, l, g, h, f) && x in NextPumps(st, l) && x != g && x != h
    ensures !MayPublish(NextPumps(st, l)[x], f)
  {
    if l.PumpL? && l.g == x { OtherMoves(st, x, l.pump, g, h, f); } else { PumpMoves(st, l, x); }
  }

  lemma OnlySamplerPublishes(st: State, l: Label, g: Gen, h: Gen, f: Fid)
    requires Spared(st, l, g, h, f) && SectionOf(st, l).Idle? && SectionOf(st, l).f == f
    ensures l.PumpL? && l.g == g && st.pumps[g] == Settling(f, Publishing)
  {
    match l {
      case PumpL(x, step) =>
        PublisherHasRun(st, x, step, f);
        OwnerWaits(st, l, g, h, f);
      case PromptL(step) => PromptPublishesTurn(st, step);
      case CloseL(step) => ClosePublishesCommitted(st, step);
      case _ =>
    }
  }

  lemma ClosePublishesCommitted(st: State, step: CloseStep)
    requires Enabled(st, CloseL(step)) && CloseSection(st.close, step).Idle?
    ensures st.close.rung == LastRung && st.close.committed != Some(false)
  {
  }

  lemma PublisherHasRun(st: State, x: Gen, step: PumpStep, f: Fid)
    requires Enabled(st, PumpL(x, step))
    requires PumpSection(st.s, st.pumps[x], x, step).Idle? && PumpSection(st.s, st.pumps[x], x, step).f == f
    ensures MayPublish(st.pumps[x], f) && (st.pumps[x] == Settling(f, Publishing) || st.pumps[x].Ending?)
  {
  }

  lemma PromptPublishesTurn(st: State, step: PromptStep)
    requires Base(st) && Enabled(st, PromptL(step)) && PromptSection(st.s, st.gate, st.launch, step).Idle?
    ensures Some(PromptSection(st.s, st.gate, st.launch, step).f) == st.s.turn
  {
  }

  lemma SamplerMoves(st: State, step: PumpStep, g: Gen, f: Fid)
    requires Enabled(st, PumpL(g, step)) && f in st.s.fg && st.s.runtime != Some(g) && Careful(st, PumpL(g, step))
    requires st.pumps[g].Work? || st.pumps[g].Settling? || !MayPublish(st.pumps[g], f)
    requires IsTurn(st.s.fg, st.s.turn) && st.s.fg[f].kind.Agent? && (st.s.cycle == Some(f) ==> Live(st.s, f))
    ensures var p := PumpNext(st.s, st.pumps[g], g, step);
            && (p.Work? || p.Settling? || !MayPublish(p, f))
            && (MayPublish(p, f) ==> MayPublish(st.pumps[g], f))
            && (PumpSection(st.s, st.pumps[g], g, step).Idle? && PumpSection(st.s, st.pumps[g], g, step).f == f ==> !MayPublish(p, f))
  {
    if !MayPublish(st.pumps[g], f) { PumpTakesUp(st, g, step, f); }
  }

  lemma SamplerEndsOnce(st: State, l: Label, g: Gen, h: Gen, f: Fid)
    requires Spared(st, l, g, h, f) && Fits(st.s, SectionOf(st, l))
    ensures g in NextPumps(st, l)
    ensures var p := NextPumps(st, l)[g]; p.Work? || p.Settling? || !MayPublish(p, f)
    ensures var v := Of(Apply(st.s, SectionOf(st, l)), f);
            |v.published| <= 1 && (v.published != [] ==> !MayPublish(NextPumps(st, l)[g], f))
  {
    if l.PumpL? && l.g == g { SamplerMoves(st, l.pump, g, f); } else { PumpMoves(st, l, g); }
    if SectionOf(st, l).Idle? && SectionOf(st, l).f == f {
      OnlySamplerPublishes(st, l, g, h, f);
    } else {
      PublishedSame(st.s, SectionOf(st, l), f);
    }
  }

  lemma StepKeepsDoomed(st: State, l: Label, g: Gen, h: Gen, f: Fid)
    requires Doomed(st, g, h, f) && Enabled(st, l) && Careful(st, l)
    ensures Doomed(Next(st, l), g, h, f)
  {
    StepKeeps(st, l);
    StepEvolves(st, l);
    StepFits(st, l);
    var t := Apply(st.s, SectionOf(st, l));
    assert NotAhead(st.s, f) && Ages(st.s.fg[f], t.fg[f]);
    if Live(t, f) {
      LiveBefore(st.s, t, f);
      if Fences(st, h, f) { OwnerWaits(st, l, g, h, f); SettlesBeside(st, l, h, f); } else { ForgoneStays(st, l, h); }
      SamplerEndsOnce(st, l, g, h, f);
      forall x | x in NextPumps(st, l) && x != g && x != h ensures !MayPublish(NextPumps(st, l)[x], f) {
        OthersKeepOff(st, l, g, h, f, x);
      }
    } else {
      PublishedSame(st.s, SectionOf(st, l), f);
    }
  }

  lemma {:induction false} RunKeepsDoomed(st: State, ls: seq<Label>, g: Gen, h: Gen, f: Fid)
    requires Doomed(st, g, h, f) && Legal(st, ls) && CarefulRun(st, ls)
    ensures Doomed(Run(st, ls), g, h, f)
    decreases |ls|
  {
    if ls != [] {
      StepKeepsDoomed(st, ls[0], g, h, f);
      RunKeepsDoomed(Next(st, ls[0]), ls[1..], g, h, f);
    }
  }

  /******* The sampled run and its owner *******/

  /** A pump is about to sample a live cycle, and every sample and join so far was careful. */
  ghost predicate Sampling(st: State, g: Gen, f: Fid) {
    && Inv(st) && Cycles(st) && Slots(st) && Clean(st) && Enabled(st, PumpL(g, Look(true)))
    && st.s.cycle == Some(f) && LiveRun(st.s, f)
  }

  /** The generation's own pump has found its commit failed and has yet to fence. */
  predicate AboutToFence(st: State, f: Fid) {
    PumpOf(st.pumps, GenOf(st.s, f)) == Settling(f, Fencing)
  }

  /** Under a close, a pump past its events. */
  predicate Quits(p: Pump) {
    p.Ending? || Finished(p)
  }

  lemma OwnSampleEndsOnce(st: State, g: Gen, work: bool, f: Fid)
    requires Sampling(st, g, f) && st.s.runtime == Some(g)
    ensures !CanEndTwice(Next(st, PumpL(g, Look(work))), f)
  {
    var l := PumpL(g, Look(work));
    var next := Next(st, l);
    StepKeeps(st, l);
    StepKeepsCycles(st, l);
    forall end | Reaches(next, end) ensures |Of(end.s, f).published| < 2 {
      var ls :| Leads(next, ls, end) && CarefulRun(next, ls);
      CarefulRunIsClean(next, ls);
      RunKeepsCycles(next, ls);
      RunKeeps(next, ls);
      RunOnwards(next, ls, f);
      assert RunClean(end.s, end.pumps, f);
    }
  }

  /** Where the owner of the sampled run stands, where the sampler is another. */
  lemma Owner(st: State, g: Gen, f: Fid)
    requires Sampling(st, g, f) && st.s.runtime != Some(g)
    ensures var h := GenOf(st.s, f);
            && h != g && st.s.fg[f].kind == Agent(h) && st.s.turn.None?
            && ((st.s.closing && Quits(PumpOf(st.pumps, h))) || Fences(st, h, f) || Owned(st, h, f))
            && (AboutToFence(st, f) <==> Fences(st, h, f))
  {
    var h := GenOf(st.s, f);
    assert !Finished(st.pumps[g]);
    if h in st.pumps { assert PumpKnows(st.s.fg, h, st.pumps[h]) && PumpClean(st.s, h, st.pumps[h]) && PumpSound(st.s, st.pumps[h]); }
  }

  lemma OthersPublishNot(st: State, g: Gen, f: Fid, x: Gen)
    requires Sampling(st, g, f) && x in st.pumps && x != GenOf(st.s, f)
    ensures !MayPublish(st.pumps[x], f)
  {
    assert PumpKnows(st.s.fg, x, st.pumps[x]) && PumpClean(st.s, x, st.pumps[x]);
  }

  lemma NotYetEnded(st: State, g: Gen, f: Fid)
    requires Sampling(st, g, f) && PumpOf(st.pumps, GenOf(st.s, f)) != Settling(f, Clearing)
    ensures st.s.fg[f].published == []
  {
    assert SlotClean(st.s, st.close, st.pumps);
  }

  lemma SampleLoses(st: State, g: Gen, work: bool, f: Fid)
    requires Sampling(st, g, f) && st.s.runtime != Some(g)
    requires Fences(st, GenOf(st.s, f), f) || Forgone(st, GenOf(st.s, f))
    ensures Doomed(Next(st, PumpL(g, Look(work))), g, GenOf(st.s, f), f)
  {
    var h := GenOf(st.s, f);
    var next := Next(st, PumpL(g, Look(work)));
    Owner(st, g, f);
    NotYetEnded(st, g, f);
    StepKeeps(st, PumpL(g, Look(work)));
    SampleTakes(st, g, work, f);
    forall x | x in next.pumps && x != g && x != h ensures !MayPublish(next.pumps[x], f) {
      OthersPublishNot(st, g, f, x);
    }
  }

  /** The sample changes nothing but its pump, which is then at work on the cycle. */
  lemma SampleTakes(st: State, g: Gen, work: bool, f: Fid)
    requires Enabled(st, PumpL(g, Look(work))) && st.s.turn.None? && st.s.cycle == Some(f)
    ensures var next := Next(st, PumpL(g, Look(work)));
            && next.s == st.s && next.pumps == st.pumps[g := Work(f)]
            && next.gate == st.gate && next.launch == st.launch && next.close == st.close
  {
  }

  lemma DoomedEndsOnce(st: State, g: Gen, h: Gen, f: Fid)
    requires Doomed(st, g, h, f)
    ensures !CanEndTwice(st, f)
  {
    forall end | Reaches(st, end) ensures |Of(end.s, f).published| < 2 {
      var ls :| Leads(st, ls, end) && CarefulRun(st, ls);
      RunKeepsDoomed(st, ls, g, h, f);
    }
  }
}
