/** Stretches of a run that can always be taken: what the goroutines do when nothing is in their way. */
module SessionScenes {
  import opened Options
  import opened SessionState
  import opened SessionMachine

  ghost predicate Leads(st: State, ls: seq<Label>, end: State) {
    Legal(st, ls) && Run(st, ls) == end
  }

  lemma {:induction false} RunsJoin(st: State, ls: seq<Label>, more: seq<Label>)
    requires Legal(st, ls) && Legal(Run(st, ls), more)
    ensures Legal(st, ls + more) && Run(st, ls + more) == Run(Run(st, ls), more)
    decreases |ls|
  {
    if ls == [] {
      assert ls + more == more;
    } else {
      RunsJoin(Next(st, ls[0]), ls[1..], more);
      assert (ls + more)[1..] == ls[1..] + more;
    }
  }

  lemma Joined(st: State, ls: seq<Label>, mid: State, more: seq<Label>, end: State) returns (all: seq<Label>)
    requires Leads(st, ls, mid) && Leads(mid, more, end)
    ensures Leads(st, all, end)
  {
    RunsJoin(st, ls, more);
    all := ls + more;
  }

  lemma One(st: State, l: Label, end: State) returns (ls: seq<Label>)
    requires Enabled(st, l) && Next(st, l) == end
    ensures ls == [l] && Leads(st, ls, end)
  {
    ls := [l];
    assert ls[1..] == [];
  }

  lemma Two(st: State, a: Label, s1: State, b: Label, end: State) returns (ls: seq<Label>)
    requires Enabled(st, a) && s1 == Next(st, a)
    requires Enabled(s1, b) && end == Next(s1, b)
    ensures Leads(st, ls, end)
  {
    var x := One(st, a, s1);
    var y := One(s1, b, end);
    ls := Joined(st, x, s1, y, end);
  }

  lemma Three(st: State, a: Label, s1: State, b: Label, s2: State, c: Label, end: State) returns (ls: seq<Label>)
    requires Enabled(st, a) && s1 == Next(st, a)
    requires Enabled(s1, b) && s2 == Next(s1, b)
    requires Enabled(s2, c) && end == Next(s2, c)
    ensures Leads(st, ls, end)
  {
    var x := Two(st, a, s1, b, s2);
    var y := One(s2, c, end);
    ls := Joined(st, x, s2, y, end);
  }

  lemma NothingChanges(s: Shared)
    ensures Apply(s, NoSection) == s
  {
  }

  /******* A pump opens a run *******/

  predicate CanOpenRun(st: State, g: Gen, f: Fid) {
    && g in st.pumps && st.pumps[g].Reading? && st.s.runtime == Some(g)
    && st.s.turn.None? && st.s.cycle.None? && !st.s.closing && f !in st.s.fg
  }

  function RunOpened(st: State, g: Gen, f: Fid): State {
    st.(s := st.s.(cycle := Some(f), fg := st.s.fg[f := Fresh(Agent(g), Current(st.s))]), pumps := st.pumps[g := Work(f)])
  }

  lemma Looks(st: State, g: Gen, f: Fid) returns (ls: seq<Label>)
    requires CanOpenRun(st, g, f)
    ensures Leads(st, ls, st.(pumps := st.pumps[g := Opening]))
  {
    ls := Two(st, PumpL(g, Check), Next(st, PumpL(g, Check)), PumpL(g, Look(true)), st.(pumps := st.pumps[g := Opening]));
  }

  /** One step of a pump that neither unbinds nor looks for a foreground. */
  lemma PumpTakes(st: State, g: Gen, step: PumpStep, s: Shared, p: Pump) returns (ls: seq<Label>)
    requires g in st.pumps && PumpEnabled(st.s, st.pumps[g], step) && !step.UnbindRuntime? && !step.Look?
    requires s == Apply(st.s, PumpSection(st.s, st.pumps[g], g, step)) && p == PumpNext(st.s, st.pumps[g], g, step)
    ensures Leads(st, ls, st.(s := s, pumps := st.pumps[g := p]))
  {
    ls := One(st, PumpL(g, step), st.(s := s, pumps := st.pumps[g := p]));
  }

  function RunMinted(st: State, g: Gen, f: Fid): State {
    st.(s := st.s.(fg := st.s.fg[f := Fresh(Agent(g), Current(st.s))]), pumps := st.pumps[g := Minted(f)])
  }

  lemma Mints(st: State, g: Gen, f: Fid) returns (ls: seq<Label>)
    requires g in st.pumps && st.pumps[g].Opening? && f !in st.s.fg
    ensures Leads(st, ls, RunMinted(st, g, f))
  {
    ls := PumpTakes(st, g, PumpStep.Mint(f), RunMinted(st, g, f).s, Minted(f));
  }

  lemma Reserves(st: State, g: Gen, f: Fid) returns (ls: seq<Label>)
    requires g in st.pumps && st.pumps[g] == Minted(f) && CanReserve(st.s, g)
    ensures Leads(st, ls, st.(s := st.s.(cycle := Some(f)), pumps := st.pumps[g := Work(f)]))
  {
    var reserved := st.(s := st.s.(cycle := Some(f)), pumps := st.pumps[g := Reserved(f)]);
    NothingChanges(reserved.s);
    var a := PumpTakes(st, g, PumpStep.Reserve, reserved.s, Reserved(f));
    var b := PumpTakes(reserved, g, Recheck, reserved.s, Work(f));
    ls := Joined(st, a, reserved, b, st.(s := st.s.(cycle := Some(f)), pumps := st.pumps[g := Work(f)]));
  }

  lemma OpensRun(st: State, g: Gen, f: Fid) returns (ls: seq<Label>)
    requires CanOpenRun(st, g, f)
    ensures Leads(st, ls, RunOpened(st, g, f))
  {
    var a := LooksAndMints(st, g, f);
    var b := Reserves(RunMinted(st, g, f), g, f);
    assert RunMinted(st, g, f).pumps[g := Work(f)] == st.pumps[g := Work(f)];
    ls := Joined(st, a, RunMinted(st, g, f), b, RunOpened(st, g, f));
  }

  lemma LooksAndMints(st: State, g: Gen, f: Fid) returns (ls: seq<Label>)
    requires CanOpenRun(st, g, f)
    ensures Leads(st, ls, RunMinted(st, g, f))
  {
    var opening := st.(pumps := st.pumps[g := Opening]);
    var a := Looks(st, g, f);
    var b := Mints(opening, g, f);
    assert RunMinted(opening, g, f) == RunMinted(st, g, f);
    ls := Joined(st, a, opening, b, RunMinted(st, g, f));
  }

  /******* An operation relaunches *******/

  predicate CanRelaunch(st: State) {
    && st.gate.Free? && !st.s.closing && st.s.runtime.None? && st.s.opener.None? && st.next !in st.s.ending
    && st.s.retired.Some? && st.s.retired.value !in st.alive
  }

  function Repaired(st: State): State {
    st.(gate := Operating, launch := Repairing, s := st.s.(retired := None))
  }

  function Restarted(st: State): State {
    st.(launch := Streaming(st.next), alive := st.alive + {st.next}, next := st.next + 1,
        pumps := st.pumps[st.next := Reading], s := st.s.(runtime := Some(st.next)))
  }

  function Streamed(st: State, g: Gen): State {
    st.(gate := Free, launch := Launch.Bound(g), s := st.s.(inc := st.s.inc + 1, active := true, streamGen := Some(g)))
  }

  lemma FindsGone(st: State) returns (ls: seq<Label>)
    requires CanRelaunch(st)
    ensures Leads(st, ls, st.(gate := Operating, launch := Gone))
  {
    ls := Two(st, OpAcquire, Next(st, OpAcquire), LaunchL(Ensure), st.(gate := Operating, launch := Gone));
  }

  lemma AwaitsExit(st: State) returns (ls: seq<Label>)
    requires st.gate.Operating? && st.launch.Gone? && st.s.retired.Some? && st.s.retired.value !in st.alive
    ensures Leads(st, ls, Repaired(st))
  {
    ls := Two(st, LaunchL(SampleRetired), Next(st, LaunchL(SampleRetired)), LaunchL(Exited), Repaired(st));
  }

  lemma BindsNext(st: State) returns (ls: seq<Label>)
    requires st.gate.Operating? && st.launch.Repairing? && !st.s.closing
    ensures Leads(st, ls, Restarted(st).(launch := Configuring(st.next)))
  {
    ls := Two(st, LaunchL(Start), Next(st, LaunchL(Start)), LaunchL(BindRuntime), Restarted(st).(launch := Configuring(st.next)));
  }

  lemma StartsNext(st: State) returns (ls: seq<Label>)
    requires st.gate.Operating? && st.launch.Repairing? && !st.s.closing
    ensures Leads(st, ls, Restarted(st))
  {
    var bound := Restarted(st).(launch := Configuring(st.next));
    var a := BindsNext(st);
    var b := One(bound, LaunchL(Configured(true)), Restarted(st));
    ls := Joined(st, a, bound, b, Restarted(st));
  }

  lemma OpensStream(st: State, g: Gen) returns (ls: seq<Label>)
    requires MayOpen(st.s, g) && g in st.alive && st.s.opener.None?
    ensures Leads(st, ls, st.(s := Streamed(st, g).s))
  {
    ls := Two(st, OpenCheck(g), st.(s := st.s.(opener := Some(g))), OpenDone(true), st.(s := Streamed(st, g).s));
  }

  lemma Hands(st: State, g: Gen) returns (ls: seq<Label>)
    requires st.gate.Operating? && st.launch == Streaming(g)
    ensures Leads(st, ls, st.(launch := Launch.Bound(g), gate := Free))
  {
    ls := Two(st, LaunchL(Published(true)), st.(launch := Launch.Bound(g)), OpRelease, st.(launch := Launch.Bound(g), gate := Free));
  }

  /** From a state whose last process is gone, to the next generation bound and set up. */
  lemma Restarts(st: State) returns (ls: seq<Label>)
    requires CanRelaunch(st)
    ensures Leads(st, ls, Restarted(Repaired(st)))
  {
    var gone := st.(gate := Operating, launch := Gone);
    var a := FindsGone(st);
    var b := AwaitsExit(gone);
    assert Repaired(gone) == Repaired(st);
    var c := StartsNext(Repaired(st));
    ls := Joined(st, a, gone, b, Repaired(st));
    ls := Joined(st, ls, Repaired(st), c, Restarted(Repaired(st)));
  }

  lemma Relaunches(st: State) returns (ls: seq<Label>)
    requires CanRelaunch(st)
    ensures Leads(st, ls, Streamed(Restarted(Repaired(st)), st.next))
  {
    var started := Restarted(Repaired(st));
    var streaming := started.(s := Streamed(started, st.next).s);
    var a := Restarts(st);
    var b := OpensStream(started, st.next);
    var c := Hands(streaming, st.next);
    ls := Joined(st, a, started, b, streaming);
    ls := Joined(st, ls, streaming, c, Streamed(started, st.next));
  }

  /******* A generation dies *******/

  predicate CanDie(st: State, g: Gen) {
    && g in st.pumps && st.pumps[g].Reading? && st.s.runtime == Some(g)
    && st.s.callbacks == map[] && st.s.opener.None? && st.s.turn.None? && (st.s.closing || st.s.cycle.None?)
  }

  function Dying(st: State, g: Gen): State {
    st.(s := st.s.(ending := st.s.ending + {g}), pumps := st.pumps[g := Ending(None, None, TurnLeg)])
  }

  function Died(st: State, g: Gen): State {
    st.(s := st.s.(runtime := None, retired := Some(g), active := st.s.active && st.s.closing),
        pumps := st.pumps[g := Done], cut := if st.s.closing then st.cut else st.cut + {g})
  }

  lemma EndsEvents(st: State, g: Gen) returns (ls: seq<Label>)
    requires CanDie(st, g)
    ensures Leads(st, ls, st.(s := Dying(st, g).s, pumps := st.pumps[g := Ending(None, None, JoinLeg)]))
  {
    ls := PumpTakes(st, g, EndEvents, Dying(st, g).s, Ending(None, None, JoinLeg));
  }

  lemma FailsNothing(st: State, g: Gen) returns (ls: seq<Label>)
    requires g in st.pumps && st.pumps[g] == Ending(None, None, JoinLeg) && st.s.callbacks == map[]
    ensures Leads(st, ls, st.(pumps := st.pumps[g := Ending(None, None, TurnLeg)]))
  {
    var a := st.(pumps := st.pumps[g := Ending(None, None, IdleLeg)]);
    var x := PumpTakes(st, g, JoinEnded, st.s, Ending(None, None, IdleLeg));
    var y := PumpTakes(a, g, FailCycle, a.s, Ending(None, None, TurnLeg));
    ls := Joined(st, x, a, y, st.(pumps := st.pumps[g := Ending(None, None, TurnLeg)]));
  }

  lemma Unbinds(st: State, g: Gen) returns (ls: seq<Label>)
    requires g in st.pumps && st.pumps[g] == Ending(None, None, UnbindLeg) && st.s.runtime == Some(g) && st.s.opener.None?
    ensures Leads(st, ls, Died(st, g).(pumps := st.pumps[g := Releasing]))
  {
    ls := One(st, PumpL(g, UnbindRuntime), Died(st, g).(pumps := st.pumps[g := Releasing]));
  }

  lemma EndsTurn(st: State, g: Gen) returns (ls: seq<Label>)
    requires g in st.pumps && st.pumps[g] == Ending(None, None, TurnLeg)
    ensures Leads(st, ls, st.(pumps := st.pumps[g := Ending(None, None, UnbindLeg)]))
  {
    ls := PumpTakes(st, g, EndTurn, st.s, Ending(None, None, UnbindLeg));
  }

  lemma Releases(st: State, g: Gen) returns (ls: seq<Label>)
    requires g in st.pumps && st.pumps[g].Releasing?
    ensures Leads(st, ls, st.(pumps := st.pumps[g := Done]))
  {
    ls := PumpTakes(st, g, Release, st.s, Done);
  }

  lemma EndsPump(st: State, g: Gen) returns (ls: seq<Label>)
    requires g in st.pumps && st.pumps[g] == Ending(None, None, TurnLeg) && st.s.runtime == Some(g) && st.s.opener.None?
    ensures Leads(st, ls, Died(st, g))
  {
    var a := st.(pumps := st.pumps[g := Ending(None, None, UnbindLeg)]);
    var b := Died(st, g).(pumps := st.pumps[g := Releasing]);
    var x := EndsTurn(st, g);
    var y := Unbinds(a, g);
    assert a.pumps[g := Releasing] == st.pumps[g := Releasing];
    var z := Releases(b, g);
    assert b.pumps[g := Done] == st.pumps[g := Done];
    ls := Joined(st, x, a, y, b);
    ls := Joined(st, ls, b, z, Died(st, g));
  }

  lemma Dies(st: State, g: Gen) returns (ls: seq<Label>)
    requires CanDie(st, g)
    ensures Leads(st, ls, Died(Dying(st, g), g))
  {
    var begun := st.(s := Dying(st, g).s, pumps := st.pumps[g := Ending(None, None, JoinLeg)]);
    var a := EndsEvents(st, g);
    var b := FailsNothing(begun, g);
    assert begun.(pumps := begun.pumps[g := Ending(None, None, TurnLeg)]) == Dying(st, g);
    var c := EndsPump(Dying(st, g), g);
    ls := Joined(st, a, begun, b, Dying(st, g));
    ls := Joined(st, ls, Dying(st, g), c, Died(Dying(st, g), g));
  }

  function WithRun(s: Shared, f: Fid, v: Foreground): Shared {
    s.(fg := s.fg[f := v])
  }

  /******* An aborted prompt loses its generation *******/

  /** One step of the prompt that holds the gate. */
  lemma PromptTakes(st: State, step: PromptStep, s: Shared, gate: Gate) returns (ls: seq<Label>)
    requires PromptEnabled(st.s, st.gate, st.launch, step) && !step.Acquire?
    requires s == Apply(st.s, PromptSection(st.s, st.gate, st.launch, step))
    requires gate == PromptNext(st.s, st.gate, st.launch, step)
    ensures Leads(st, ls, st.(s := s, gate := gate))
  {
    ls := One(st, PromptL(step), st.(s := s, gate := gate));
  }

  /** The prompt holds the gate with its turn in the slot. */
  function Held(st: State, f: Fid, v: Foreground, p: Prompt, launch: Launch): State {
    st.(s := st.s.(turn := Some(f), fg := st.s.fg[f := v]), gate := Prompting(p), launch := launch)
  }

  predicate CanLose(st: State, g: Gen, f: Fid) {
    && st.gate.Operating? && AtRest(st.launch) && !st.s.closing && st.s.turn.None? && st.s.cycle.None?
    && st.s.runtime == Some(g) && g !in st.s.ending && f !in st.s.fg
    && st.s.callbacks == map[] && st.s.opener.None? && !st.s.active
  }

  lemma Installs(st: State, g: Gen, f: Fid) returns (ls: seq<Label>)
    requires CanLose(st, g, f)
    ensures Leads(st, ls, Held(st, f, Fresh(Prompted, None), Installed(f), Unasked))
  {
    var free := st.(gate := Free);
    var gated := st.(gate := Prompting(Gated), launch := Unasked);
    var a := Two(st, OpRelease, free, PromptL(Acquire), gated);
    var b := PromptTakes(gated, PromptStep.Install(f), Held(st, f, Fresh(Prompted, None), Installed(f), Unasked).s, Prompting(Installed(f)));
    ls := Joined(st, a, gated, b, Held(st, f, Fresh(Prompted, None), Installed(f), Unasked));
  }

  function AcceptedTurn(): Foreground { Fresh(Prompted, None).(accepted := true) }

  lemma Obtains(st: State, g: Gen, f: Fid) returns (ls: seq<Label>)
    requires CanLose(st, g, f)
    ensures Leads(Held(st, f, Fresh(Prompted, None), Installed(f), Unasked), ls,
                  Held(st, f, Fresh(Prompted, None), Ready(f, g), Launch.Bound(g)))
  {
    var a := Held(st, f, Fresh(Prompted, None), Installed(f), Unasked);
    var b := Held(st, f, Fresh(Prompted, None), Ready(f, g), Launch.Bound(g));
    NothingChanges(a.s);
    ls := Two(a, LaunchL(Ensure), a.(launch := Launch.Bound(g)), PromptL(Obtain), b);
  }

  lemma Dispatches(st: State, g: Gen, f: Fid) returns (ls: seq<Label>)
    requires CanLose(st, g, f)
    ensures Leads(Held(st, f, Fresh(Prompted, None), Installed(f), Unasked), ls,
                  Held(st, f, AcceptedTurn(), Waiting(f, g), Launch.Bound(g)))
  {
    var a := Held(st, f, Fresh(Prompted, None), Installed(f), Unasked);
    var b := Held(st, f, Fresh(Prompted, None), Ready(f, g), Launch.Bound(g));
    var x := Obtains(st, g, f);
    var y := PromptTakes(b, Accepted, Held(st, f, AcceptedTurn(), Waiting(f, g), Launch.Bound(g)).s, Prompting(Waiting(f, g)));
    ls := Joined(a, x, b, y, Held(st, f, AcceptedTurn(), Waiting(f, g), Launch.Bound(g)));
  }

  function CancelledTurn(): Foreground { AcceptedTurn().(cancelled := true) }

  lemma StruckBy(s: Shared, f: Fid, cid: Cid, struck: Shared)
    requires s.turn == Some(f) && f in s.fg && s.fg[f] == AcceptedTurn() && s.callbacks == map[]
    requires s.runtime.Some? && s.runtime.value !in s.ending && !s.closing
    requires struck == WithRun(s, f, CancelledTurn()).(callbacks := map[cid := Interrupt(f)])
    ensures Apply(s, CancelSlot(cid)) == struck
    ensures Apply(struck, Section.Finish(cid)) == WithRun(s, f, CancelledTurn())
  {
  }

  /** A cancel strikes, and the interrupt it starts ends without settling the run. */
  lemma Strikes(st: State, g: Gen, f: Fid, cid: Cid) returns (ls: seq<Label>)
    requires CanLose(st, g, f)
    ensures Leads(Held(st, f, AcceptedTurn(), Waiting(f, g), Launch.Bound(g)), ls,
                  Held(st, f, CancelledTurn(), Waiting(f, g), Launch.Bound(g)))
  {
    var a := Held(st, f, AcceptedTurn(), Waiting(f, g), Launch.Bound(g));
    var b := Held(st, f, CancelledTurn(), Waiting(f, g), Launch.Bound(g));
    var struck := b.(s := b.s.(callbacks := map[cid := Interrupt(f)]));
    StruckBy(a.s, f, cid, struck.s);
    var x := One(a, CancelL(cid), struck);
    var y := One(struck, CallbackDone(cid), b);
    ls := Joined(a, x, struck, y, b);
  }

  function AbortedTurn(): Foreground { CancelledTurn().(ended := TransportEnded) }

  lemma Aborts(st: State, g: Gen, f: Fid) returns (ls: seq<Label>)
    requires CanLose(st, g, f)
    ensures Leads(Held(st, f, CancelledTurn(), Waiting(f, g), Launch.Bound(g)), ls,
                  Held(st, f, AbortedTurn(), Closure(f, g, Mark), Launch.Bound(g)))
  {
    var b := Held(st, f, CancelledTurn(), Waiting(f, g), Launch.Bound(g));
    var c := Held(st, f, AbortedTurn(), Waiting(f, g), Launch.Bound(g));
    var x := PromptTakes(b, Abort, c.s, Prompting(Waiting(f, g)));
    var y := PromptTakes(c, Wake, c.s, Prompting(Closure(f, g, Mark)));
    ls := Joined(b, x, c, y, Held(st, f, AbortedTurn(), Closure(f, g, Mark), Launch.Bound(g)));
  }

  function JoinedTurn(): Foreground { AbortedTurn().(settling := true) }

  lemma JoinsLost(st: State, g: Gen, f: Fid) returns (ls: seq<Label>)
    requires CanLose(st, g, f)
    ensures Leads(Held(st, f, AbortedTurn(), Closure(f, g, Mark), Launch.Bound(g)), ls,
                  Held(st, f, JoinedTurn(), Closure(f, g, Judging), Launch.Bound(g)))
  {
    var step := SettleTurn(Success, true);
    var a := Held(st, f, AbortedTurn(), Closure(f, g, Mark), Launch.Bound(g));
    var b := Held(st, f, JoinedTurn(), Closure(f, g, Join), Launch.Bound(g));
    var c := Held(st, f, JoinedTurn(), Closure(f, g, Judging), Launch.Bound(g));
    var x := PromptTakes(a, step, b.s, b.gate);
    var y := PromptTakes(b, step, c.s, c.gate);
    ls := Joined(a, x, b, y, c);
  }

  function JudgedTurn(): Foreground { JoinedTurn().(native := Some(Success), verdict := Some(Cancelled)) }

  lemma JudgesLost(st: State, g: Gen, f: Fid) returns (ls: seq<Label>)
    requires CanLose(st, g, f)
    ensures Leads(Held(st, f, JoinedTurn(), Closure(f, g, Judging), Launch.Bound(g)), ls,
                  Held(st, f, JudgedTurn(), Closure(f, g, Fencing), Launch.Bound(g)))
  {
    var c := Held(st, f, JoinedTurn(), Closure(f, g, Judging), Launch.Bound(g));
    var d := Held(st, f, JudgedTurn(), Closure(f, g, Fencing), Launch.Bound(g));
    ls := PromptTakes(c, SettleTurn(Success, true), d.s, d.gate);
  }

  /** The generation is gone and its process may be exiting. */
  function Dropped(st: State, g: Gen): State {
    st.(s := st.s.(runtime := None, retired := Some(g)))
  }

  function ClaimedTurn(): Foreground { JudgedTurn().(claimed := Some(true)) }

  lemma FencesLost(st: State, g: Gen, f: Fid) returns (ls: seq<Label>)
    requires CanLose(st, g, f)
    ensures Leads(Held(st, f, JudgedTurn(), Closure(f, g, Fencing), Launch.Bound(g)), ls,
                  Held(st, f, JudgedTurn(), Closure(f, g, Dropping), Launch.Bound(g)))
  {
    var b := Held(st, f, JudgedTurn(), Closure(f, g, Dropping), Launch.Bound(g));
    ls := PromptTakes(Held(st, f, JudgedTurn(), Closure(f, g, Fencing), Launch.Bound(g)), SettleTurn(Success, true), b.s, b.gate);
  }

  lemma DropsLost(st: State, g: Gen, f: Fid) returns (ls: seq<Label>)
    requires CanLose(st, g, f)
    ensures Leads(Held(st, f, JudgedTurn(), Closure(f, g, Dropping), Launch.Bound(g)), ls,
                  Held(Dropped(st, g), f, JudgedTurn(), Closure(f, g, Claiming), Launch.Bound(g)))
  {
    var c := Held(Dropped(st, g), f, JudgedTurn(), Closure(f, g, Claiming), Launch.Bound(g));
    ls := PromptTakes(Held(st, f, JudgedTurn(), Closure(f, g, Dropping), Launch.Bound(g)), SettleTurn(Success, true), c.s, c.gate);
  }

  lemma ClaimsLost(st: State, g: Gen, f: Fid) returns (ls: seq<Label>)
    requires CanLose(st, g, f)
    ensures Leads(Held(Dropped(st, g), f, JudgedTurn(), Closure(f, g, Claiming), Launch.Bound(g)), ls,
                  Held(Dropped(st, g), f, ClaimedTurn(), Closure(f, g, Publishing), Launch.Bound(g)))
  {
    var d := Held(Dropped(st, g), f, ClaimedTurn(), Closure(f, g, Publishing), Launch.Bound(g));
    ls := PromptTakes(Held(Dropped(st, g), f, JudgedTurn(), Closure(f, g, Claiming), Launch.Bound(g)), SettleTurn(Success, true), d.s, d.gate);
  }

  function Lost(st: State, g: Gen, f: Fid): State {
    Dropped(st, g).(s := Dropped(st, g).s.(fg := st.s.fg[f := ClaimedTurn()]), gate := Free, launch := Launch.Bound(g))
  }

  lemma PublishesNothing(st: State, g: Gen, f: Fid) returns (ls: seq<Label>)
    requires CanLose(st, g, f)
    ensures Leads(Held(Dropped(st, g), f, ClaimedTurn(), Closure(f, g, Publishing), Launch.Bound(g)), ls,
                  Held(Dropped(st, g), f, ClaimedTurn(), Unslotting(f), Launch.Bound(g)))
  {
    var b := Held(Dropped(st, g), f, ClaimedTurn(), Unslotting(f), Launch.Bound(g));
    ls := PromptTakes(Held(Dropped(st, g), f, ClaimedTurn(), Closure(f, g, Publishing), Launch.Bound(g)),
                      SettleTurn(Success, true), b.s, b.gate);
  }

  lemma LeavesLost(st: State, g: Gen, f: Fid) returns (ls: seq<Label>)
    requires CanLose(st, g, f)
    ensures Leads(Held(Dropped(st, g), f, ClaimedTurn(), Unslotting(f), Launch.Bound(g)), ls, Lost(st, g, f))
  {
    var b := Held(Dropped(st, g), f, ClaimedTurn(), Unslotting(f), Launch.Bound(g));
    var c := Lost(st, g, f).(gate := Prompting(Finishing(f)));
    var y := PromptTakes(b, PromptStep.Unslot, c.s, c.gate);
    NothingChanges(c.s);
    var z := Two(c, PromptL(PromptStep.Finish), c.(gate := Prompting(Leaving)), PromptL(Leave), Lost(st, g, f));
    ls := Joined(b, y, c, z, Lost(st, g, f));
  }

  lemma Settles(st: State, g: Gen, f: Fid) returns (ls: seq<Label>)
    requires CanLose(st, g, f)
    ensures Leads(Held(st, f, AbortedTurn(), Closure(f, g, Mark), Launch.Bound(g)), ls, Lost(st, g, f))
  {
    var a := Held(st, f, AbortedTurn(), Closure(f, g, Mark), Launch.Bound(g));
    var b := Held(st, f, JoinedTurn(), Closure(f, g, Judging), Launch.Bound(g));
    var c := Held(st, f, JudgedTurn(), Closure(f, g, Fencing), Launch.Bound(g));
    var d := Held(Dropped(st, g), f, ClaimedTurn(), Closure(f, g, Publishing), Launch.Bound(g));
    var w := JoinsLost(st, g, f);
    var x := JudgesLost(st, g, f);
    var e := Held(st, f, JudgedTurn(), Closure(f, g, Dropping), Launch.Bound(g));
    var v := FencesLost(st, g, f);
    var y := DropsLost(st, g, f);
    var h := Held(Dropped(st, g), f, ClaimedTurn(), Unslotting(f), Launch.Bound(g));
    var u := PublishesNothing(st, g, f);
    var z := LeavesLost(st, g, f);
    ls := Joined(a, w, b, x, c);
    ls := Joined(a, ls, c, v, e);
    var i := Held(Dropped(st, g), f, JudgedTurn(), Closure(f, g, Claiming), Launch.Bound(g));
    var t := ClaimsLost(st, g, f);
    ls := Joined(a, ls, e, y, i);
    ls := Joined(a, ls, i, t, d);
    ls := Joined(a, ls, d, u, h);
    ls := Joined(a, ls, h, z, Lost(st, g, f));
  }

  lemma Loses(st: State, g: Gen, f: Fid, cid: Cid) returns (ls: seq<Label>)
    requires CanLose(st, g, f)
    ensures Leads(st, ls, Lost(st, g, f))
  {
    var a := Held(st, f, Fresh(Prompted, None), Installed(f), Unasked);
    var b := Held(st, f, AcceptedTurn(), Waiting(f, g), Launch.Bound(g));
    var c := Held(st, f, CancelledTurn(), Waiting(f, g), Launch.Bound(g));
    var d := Held(st, f, AbortedTurn(), Closure(f, g, Mark), Launch.Bound(g));
    var v := Installs(st, g, f);
    var w := Dispatches(st, g, f);
    var x := Strikes(st, g, f, cid);
    var y := Aborts(st, g, f);
    var z := Settles(st, g, f);
    ls := Joined(st, v, a, w, b);
    ls := Joined(st, ls, b, x, c);
    ls := Joined(st, ls, c, y, d);
    ls := Joined(st, ls, d, z, Lost(st, g, f));
  }

  /******* A close finds nothing to commit *******/

  function Closes(st: State): State {
    st.(s := st.s.(closing := true), close := Close(StopRung, !st.s.persisted, st.s.runtime, false, None, None))
  }

  lemma BeginsClose(st: State) returns (ls: seq<Label>)
    requires st.close.rung == Unclosed && !st.s.closing && st.s.turn.None? && st.s.callbacks == map[]
    ensures Leads(st, ls, Closes(st))
  {
    var begun := Closes(st).(close := Closes(st).close.(rung := JoinRung));
    ls := Two(st, CloseL(CloseStep.Begin), begun, CloseL(JoinCallbacks), Closes(st));
  }

  predicate CanFindNothing(st: State) {
    && st.close.rung == StopRung && st.close.joins && st.close.rt.Some? && PumpOf(st.pumps, st.close.rt.value).Done?
    && st.s.runtime.None? && st.gate.Free? && !st.s.persisted
  }

  function FoundNothing(st: State): State {
    st.(gate := Closer, close := st.close.(rung := TakeRung, persisted := false))
  }

  lemma FindsNothing(st: State) returns (ls: seq<Label>)
    requires CanFindNothing(st)
    ensures Leads(st, ls, FoundNothing(st))
  {
    var a := st.(close := st.close.(rung := GateRung));
    var b := a.(gate := Closer, close := a.close.(rung := SampleRung));
    ls := Three(st, CloseL(Stop(true)), a, CloseL(EnterGate), b, CloseL(SamplePersisted), FoundNothing(st));
  }

  function Taken(st: State, f: Fid, v: Foreground): State {
    st.(s := WithRun(st.s, f, v).(cycle := None), close := st.close.(rung := FenceRung, taken := Some(f)))
  }

  lemma TakesCycle(st: State, f: Fid, v: Foreground) returns (ls: seq<Label>)
    requires st.close.rung == TakeRung && st.close.committed.None? && st.s.cycle == Some(f) && Live(st.s, f)
    requires v == st.s.fg[f].(published := st.s.fg[f].published + [Terminal(Cancelled, Closing)])
    ensures Leads(st, ls, Taken(st, f, v))
  {
    var a := st.(s := st.s.(cycle := None), close := st.close.(rung := LastRung, taken := Some(f)));
    ls := Two(st, CloseL(CloseStep.TakeCycle), a, CloseL(IdleCycle), Taken(st, f, v));
  }
}
