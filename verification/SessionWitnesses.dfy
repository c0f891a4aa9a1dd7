/**
 Runs that show where a promise of the session stops. Each is a legal interleaving from an established session, and
 SessionTheorems says what condition keeps the promise.
 */
module SessionWitnesses {
  import opened Options
  import opened SessionState
  import opened SessionMachine
  import opened SessionCycles
  import opened SessionScenes
  import opened SessionContests
  import opened SessionDialogs
  import opened SessionLadder
  import opened SessionTheorems

  /******* A stale pump ends a run of the next generation *******/

  // A pump passes its generation check; its generation is lost to an aborted prompt and replaced; the pump then
  // samples the new generation's cycle, and both pumps settle it.

  function Passed(): State { Init(false).(pumps := map[0 := Checked]) }
  function Exited(): State { Lost(Passed(), 0, 0).(alive := {}) }
  function Replaced(): State { Streamed(Restarted(Repaired(Exited())), 1) }
  function Opened(): State { RunOpened(Replaced(), 1, 1) }

  lemma LosesAndReplaces() returns (ls: seq<Label>)
    ensures Leads(Init(false), ls, Replaced())
  {
    var a := One(Init(false), PumpL(0, Check), Passed());
    var b := Loses(Passed(), 0, 0, 0);
    var c := One(Lost(Passed(), 0, 0), ProcessExit(0), Exited());
    var d := Relaunches(Exited());
    ls := Joined(Init(false), a, Passed(), b, Lost(Passed(), 0, 0));
    ls := Joined(Init(false), ls, Lost(Passed(), 0, 0), c, Exited());
    ls := Joined(Init(false), ls, Exited(), d, Replaced());
  }

  lemma ReplacedFacts()
    ensures Replaced().pumps == map[0 := Checked, 1 := Reading] && Replaced().close.committed.None?
    ensures Replaced().stale == Replaced().timedOut == false
    ensures var s := Replaced().s;
            && s.runtime == Some(1) && s.turn.None? && s.cycle.None? && !s.closing && s.active
            && s.callbacks == map[] && s.opener.None? && s.fg.Keys == {0} && s.inc == 1
  {
  }

  lemma OpensBeside() returns (ls: seq<Label>)
    ensures Leads(Init(false), ls, Opened())
  {
    ReplacedFacts();
    var a := LosesAndReplaces();
    var b := OpensRun(Replaced(), 1, 1);
    ls := Joined(Init(false), a, Replaced(), b, Opened());
  }

  lemma OpenedFacts()
    ensures Opened().pumps == map[0 := Checked, 1 := Work(1)] && Clean(Opened()) && Opened().close.committed.None?
    ensures var s := Opened().s;
            && s.runtime == Some(1) && s.turn.None? && s.cycle == Some(1) && !s.closing && s.callbacks == map[]
            && LiveRun(s, 1) && GenOf(s, 1) == 1 && s.fg[1].published == []
  {
    ReplacedFacts();
  }

  /** An agent run can end twice with a single careless sample: AgentRunEndsOnce does need careful ones. */
  lemma StaleSampleEndsTwice() returns (ls: seq<Label>, more: seq<Label>)
    ensures Legal(Init(false), ls) && Run(Init(false), ls) == Opened() && Clean(Opened())
    ensures Enabled(Opened(), PumpL(0, Look(true))) && !Careful(Opened(), PumpL(0, Look(true)))
    ensures Legal(Next(Opened(), PumpL(0, Look(true))), more) && CarefulRun(Next(Opened(), PumpL(0, Look(true))), more)
    ensures |Of(Run(Next(Opened(), PumpL(0, Look(true))), more).s, 1).published| >= 2
  {
    OpenedFacts();
    ls := OpensBeside();
    SampleEndsTwiceExactly(false, ls, 0, true, 1);
    var end :| Reaches(Next(Opened(), PumpL(0, Look(true))), end) && |Of(end.s, 1).published| >= 2;
    more :| Leads(Next(Opened(), PumpL(0, Look(true))), more, end) && CarefulRun(Next(Opened(), PumpL(0, Look(true))), more);
  }

  /******* Beside a stale pump a run's terminal event can leave its dialog open *******/

  /** With one careless sample, all else careful, a run's terminal event can appear beside its own unresolved action. */
  lemma StaleDialogOutlivesRun() returns (ls: seq<Label>, more: seq<Label>, end: State, l: Label, cid: Cid)
    ensures Legal(Init(false), ls) && Run(Init(false), ls) == Opened() && Clean(Opened())
    ensures Enabled(Opened(), PumpL(0, Look(true))) && !Careful(Opened(), PumpL(0, Look(true)))
    ensures Leads(Next(Opened(), PumpL(0, Look(true))), more, end) && CarefulRun(Next(Opened(), PumpL(0, Look(true))), more)
    ensures LeavesDialog(end, l, cid, 1)
  {
    OpenedFacts();
    ls := OpensBeside();
    SampleLeavesDialogExactly(false, ls, 0, true, 1);
    end, l, cid :| Reaches(Next(Opened(), PumpL(0, Look(true))), end) && LeavesDialog(end, l, cid, 1);
    more :| Leads(Next(Opened(), PumpL(0, Look(true))), more, end) && CarefulRun(Next(Opened(), PumpL(0, Look(true))), more);
  }

  /******* A session never persisted closes *******/

  // The establishing commit fails and its request lets go of the gate; the process dies and another operation
  // relaunches; the new generation opens a cycle; close finds nothing persisted and commits nothing.

  function Released(): State { Init(false).(gate := Free) }
  function Bereft(): State { Died(Dying(Released(), 0), 0).(alive := {}) }
  function Revived(): State { Streamed(Restarted(Repaired(Bereft())), 1) }
  function Busy(): State { RunOpened(Revived(), 1, 0) }
  function Idled(): State { Busy().(pumps := Revived().pumps) }
  function Abandoned(): State { Closes(Idled()).(alive := {}) }
  function Unbound(): State { Died(Dying(Abandoned(), 1), 1) }
  function Ended(): State { Taken(FoundNothing(Unbound()), 0, Fresh(Agent(1), Some(1)).(published := [Terminal(Cancelled, Closing)])) }

  lemma Bereaves() returns (ls: seq<Label>)
    ensures Leads(Init(false), ls, Bereft())
  {
    var a := Two(Init(false), OpCommit(false), Init(false), OpRelease, Released());
    var b := Dies(Released(), 0);
    var c := One(Died(Dying(Released(), 0), 0), ProcessExit(0), Bereft());
    ls := Joined(Init(false), a, Released(), b, Died(Dying(Released(), 0), 0));
    ls := Joined(Init(false), ls, Died(Dying(Released(), 0), 0), c, Bereft());
  }

  lemma Revives() returns (ls: seq<Label>)
    ensures Leads(Init(false), ls, Revived())
  {
    var a := Bereaves();
    var b := Relaunches(Bereft());
    ls := Joined(Init(false), a, Bereft(), b, Revived());
  }

  lemma RevivedFacts()
    ensures Revived().pumps == map[0 := Done, 1 := Reading] && Clean(Revived()) && Revived().gate.Free?
    ensures Revived().alive == {1} && Revived().close == Close(Unclosed, false, None, false, None, None)
    ensures var s := Revived().s;
            && s.runtime == Some(1) && s.turn.None? && s.cycle.None? && !s.closing && s.active && s.streamGen == Some(1)
            && s.callbacks == map[] && s.opener.None? && s.fg == map[] && s.inc == 1 && !s.persisted && !s.ephemeral
  {
  }

  lemma ClosesBusy() returns (ls: seq<Label>)
    ensures Leads(Revived(), ls, Abandoned())
  {
    RevivedFacts();
    var a := OpensIdle();
    var b := BeginsClose(Idled());
    var c := One(Closes(Idled()), ProcessExit(1), Abandoned());
    ls := Joined(Revived(), a, Idled(), b, Closes(Idled()));
    ls := Joined(Revived(), ls, Closes(Idled()), c, Abandoned());
  }

  lemma OpensIdle() returns (ls: seq<Label>)
    ensures Leads(Revived(), ls, Idled())
  {
    RevivedFacts();
    var a := OpensRun(Revived(), 1, 0);
    assert Busy().pumps[1 := Reading] == Revived().pumps;
    NothingChanges(Busy().s);
    var b := PumpTakes(Busy(), 1, FinishEvent, Busy().s, Reading);
    ls := Joined(Revived(), a, Busy(), b, Idled());
  }

  lemma UnboundFacts()
    ensures Unbound().pumps == map[0 := Done, 1 := Done] && Clean(Unbound()) && Unbound().gate.Free?
    ensures Unbound().close == Close(StopRung, true, Some(1), false, None, None)
    ensures var s := Unbound().s;
            && s.runtime.None? && s.cycle == Some(0) && s.closing && s.active && s.streamGen == Some(1)
            && s.fg == map[0 := Fresh(Agent(1), Some(1))] && s.inc == 1 && !s.persisted && !s.ephemeral
  {
  }

  lemma EndsUncommitted() returns (ls: seq<Label>)
    ensures Leads(Unbound(), ls, Ended())
  {
    UnboundFacts();
    var a := FindsNothing(Unbound());
    var b := TakesCycle(FoundNothing(Unbound()), 0, Fresh(Agent(1), Some(1)).(published := [Terminal(Cancelled, Closing)]));
    ls := Joined(Unbound(), a, FoundNothing(Unbound()), b, Ended());
  }

  /** A generation can be unbound with its stream active, while a close is on its way to the fence. */
  lemma ClosingKeepsStream() returns (ls: seq<Label>)
    ensures Leads(Init(false), ls, Unbound())
    ensures Unbound().s.runtime.None? && Unbound().s.active && Unbound().s.streamGen == Some(1) && Unbound().pumps[1] == Done
  {
    RevivedFacts();
    UnboundFacts();
    var a := Revives();
    var b := ClosesBusy();
    var c := Dies(Abandoned(), 1);
    ls := Joined(Init(false), a, Revived(), b, Abandoned());
    ls := Joined(Init(false), ls, Abandoned(), c, Unbound());
  }

  /** A close ends its cycle with nothing committed when the session was never persisted. */
  lemma CloseEndsUncommitted() returns (ls: seq<Label>)
    ensures Legal(Init(false), ls) && Clean(Run(Init(false), ls))
    ensures !Run(Init(false), ls).s.persisted && !Run(Init(false), ls).s.ephemeral
    ensures Of(Run(Init(false), ls).s, 0).published == [Terminal(Cancelled, Closing)]
  {
    UnboundFacts();
    var a := ClosingKeepsStream();
    var b := EndsUncommitted();
    ls := Joined(Init(false), a, Unbound(), b, Ended());
  }

  /******* A pump that was given up on ends a run beside the next *******/

  // A relaunch's pump opens a run on a stream that is already open; its set-up then fails and the stop does not wait for
  // the pump. The cycle stays in the slot, and the next generation's pump samples it as its own.

  function Fitted(st: State, g: Gen): State { Restarted(Repaired(st)).(launch := Configuring(g)) }
  function Flowing(): State { Fitted(Bereft(), 1).(s := Streamed(Fitted(Bereft(), 1), 1).s) }
  function Running(): State { RunOpened(Flowing(), 1, 0) }
  function GivenUp(): State { LetGo(Running(), 1).(alive := {}) }
  function Rebound(): State { Restarted(Repaired(GivenUp())).(launch := Launch.Bound(2), gate := Free) }
  function Contended(): State { Rebound().(pumps := Rebound().pumps[2 := Work(0)]) }

  function LetGo(st: State, g: Gen): State {
    st.(launch := Refused, gate := Free, timedOut := true, s := st.s.(runtime := None, retired := Some(g)))
  }

  /** The stop that does not wait. */
  lemma LetsGo(st: State, g: Gen) returns (ls: seq<Label>)
    requires st.gate.Operating? && st.launch == Configuring(g) && st.s.runtime == Some(g)
    requires g in st.pumps && st.pumps[g].Work?
    ensures Leads(st, ls, LetGo(st, g))
  {
    var stopping := st.(launch := Stopping(g));
    var stopped := LetGo(st, g).(gate := Operating);
    DropSection(st.s, g);
    NothingChanges(st.s);
    NothingChanges(stopped.s);
    var a := One(st, LaunchL(Configured(false)), stopping);
    var b := One(stopping, LaunchL(Stopped(false)), stopped);
    var c := One(stopped, OpRelease, LetGo(st, g));
    ls := Joined(st, a, stopping, b, stopped);
    ls := Joined(st, ls, stopped, c, LetGo(st, g));
  }

  lemma DropSection(s: Shared, g: Gen)
    requires s.runtime == Some(g)
    ensures Apply(s, Section.Drop(g)) == s.(runtime := None, retired := Some(g))
  {
  }

  /** A pump whose generation is bound takes the cycle in the slot. */
  lemma Resamples(st: State, h: Gen, f: Fid) returns (ls: seq<Label>)
    requires h in st.pumps && st.pumps[h].Reading? && st.s.runtime == Some(h) && st.s.turn.None? && st.s.cycle == Some(f)
    ensures Leads(st, ls, st.(pumps := st.pumps[h := Work(f)]))
  {
    var checked := st.(pumps := st.pumps[h := Checked]);
    ls := Two(st, PumpL(h, Check), checked, PumpL(h, Look(true)), st.(pumps := st.pumps[h := Work(f)]));
  }

  lemma BereftFacts()
    ensures CanRelaunch(Bereft()) && Bereft().next == 1 && Bereft().pumps == map[0 := Done] && Clean(Bereft())
    ensures var s := Bereft().s; s.turn.None? && s.cycle.None? && s.callbacks == map[] && s.fg == map[] && s.inc == 0 && s.ending == {0}
  {
  }

  /** A relaunch as far as its set-up, with a stream opened beside it. */
  lemma SetsUpAndFlows(st: State) returns (ls: seq<Label>)
    requires CanRelaunch(st)
    ensures Leads(st, ls, Fitted(st, st.next).(s := Streamed(Fitted(st, st.next), st.next).s))
  {
    var gone := st.(gate := Operating, launch := Gone);
    var a := FindsGone(st);
    var b := AwaitsExit(gone);
    assert Repaired(gone) == Repaired(st);
    var c := BindsNext(Repaired(st));
    var d := OpensStream(Fitted(st, st.next), st.next);
    ls := Joined(st, a, gone, b, Repaired(st));
    ls := Joined(st, ls, Repaired(st), c, Fitted(st, st.next));
    ls := Joined(st, ls, Fitted(st, st.next), d, Fitted(st, st.next).(s := Streamed(Fitted(st, st.next), st.next).s));
  }

  /** A relaunch that opens no stream. */
  lemma Rebinds(st: State) returns (ls: seq<Label>)
    requires CanRelaunch(st)
    ensures Leads(st, ls, Restarted(Repaired(st)).(launch := Launch.Bound(st.next), gate := Free))
  {
    var a := Restarts(st);
    var b := Hands(Restarted(Repaired(st)), st.next);
    ls := Joined(st, a, Restarted(Repaired(st)), b, Restarted(Repaired(st)).(launch := Launch.Bound(st.next), gate := Free));
  }

  lemma FlowingFacts()
    ensures CanOpenRun(Flowing(), 1, 0) && Running().pumps == map[0 := Done, 1 := Work(0)] && Clean(Running())
    ensures Running().gate.Operating? && Running().launch == Configuring(1) && Running().next == 2
    ensures var s := Running().s;
            && s.runtime == Some(1) && s.turn.None? && s.cycle == Some(0) && !s.closing && s.opener.None? && s.ending == {0}
            && s.callbacks == map[] && LiveRun(s, 0)
  {
    BereftFacts();
  }

  lemma RunsBeforeSetUp() returns (ls: seq<Label>)
    ensures Leads(Init(false), ls, Running())
  {
    BereftFacts();
    FlowingFacts();
    var a := Bereaves();
    var b := SetsUpAndFlows(Bereft());
    var c := OpensRun(Flowing(), 1, 0);
    ls := Joined(Init(false), a, Bereft(), b, Flowing());
    ls := Joined(Init(false), ls, Flowing(), c, Running());
  }

  lemma GivesUpAndSamples() returns (ls: seq<Label>)
    ensures Leads(Running(), ls, Contended())
  {
    FlowingFacts();
    var a := LetsGo(Running(), 1);
    var b := One(LetGo(Running(), 1), ProcessExit(1), GivenUp());
    var c := Rebinds(GivenUp());
    var d := Resamples(Rebound(), 2, 0);
    ls := Joined(Running(), a, LetGo(Running(), 1), b, GivenUp());
    ls := Joined(Running(), ls, GivenUp(), c, Rebound());
    ls := Joined(Running(), ls, Rebound(), d, Contended());
  }

  lemma ContendedFacts()
    ensures Contended().pumps == map[0 := Done, 1 := Work(0), 2 := Work(0)] && LiveRun(Contended().s, 0)
    ensures Contended().s.callbacks == map[] && !Contended().stale && Contended().timedOut
  {
    FlowingFacts();
  }

  /** An agent run can end twice with every sample careful when one stop gives up on its pump. */
  lemma GivenUpPumpEndsTwice() returns (ls: seq<Label>)
    ensures Legal(Init(false), ls) && !Run(Init(false), ls).stale && CanEndTwice(Run(Init(false), ls), 0)
  {
    ContendedFacts();
    var a := RunsBeforeSetUp();
    var b := GivesUpAndSamples();
    TwoSettle(Contended(), 1, 2, 0);
    ls := Joined(Init(false), a, Running(), b, Contended());
  }
}
