/**
 The session object whose fields those goroutines share. The first methods are the locked regions of the code, each
 proved to have exactly the effect of its Section. The last compose them as prompt, settleTurn, settleAgentCycle,
 openAgentCycle, openStream, runtimeEnded, the relaunch and close do, with the other goroutines running between any two
 regions: what they may have done is what SessionRely proves of each of their steps.
 */
module SessionObject {
  import opened Options
  import opened SessionState
  import opened SessionFacts
  import opened SessionSettlement
  import opened SessionRely

  /** What a blocked goroutine waits for while the others run. */
  datatype Wait = Nothing | Callbacks | Opening

  class Session {
    var runtime: Option<Gen>
    var retired: Option<Gen>
    var ending: set<Gen>
    var turn: Option<Fid>
    var cycle: Option<Fid>
    var closing: bool
    var persisted: bool
    const ephemeral: bool
    var runs: map<Fid, Foreground>
    var dialogs: set<Cid>               // cancellable callbacks
    var waiting: nat                    // the WaitGroup's count
    ghost var callbacks: map<Cid, Callback>
    var opener: Option<Gen>
    var inc: nat
    var active: bool
    var streamGen: Option<Gen>

    ghost predicate Valid()
      reads this
    {
      && waiting == |callbacks|
      && dialogs == set cid | cid in callbacks && callbacks[cid].Dialog?
    }

    ghost function Abs(): Shared
      reads this
    {
      Shared(runtime, retired, ending, turn, cycle, closing, persisted, ephemeral, runs, callbacks, opener, inc, active,
             streamGen)
    }

    constructor (ephemeral0: bool, g: Gen)
      ensures Valid()
      ensures Abs() == Shared(Some(g), None, {}, None, None, false, false, ephemeral0, map[], map[], None, 0, false, None)
    {
      ephemeral := ephemeral0;
      runtime, retired, ending, turn, cycle := Some(g), None, {}, None, None;
      closing, persisted, runs, dialogs, waiting, callbacks := false, false, map[], {}, 0, map[];
      opener, inc, active, streamGen := None, 0, false, None;
    }

    /******* prompt *******/

    method InstallTurn(f: Fid) returns (busy: bool)
      requires Valid() && f !in runs
      modifies `turn, `runs
      ensures Valid() && Abs() == Apply(old(Abs()), Section.Install(f)) && busy == old(cycle).Some?
    {
      busy := cycle.Some?;
      if busy {
        return;
      }
      turn := Some(f);
      runs := runs[f := Fresh(Prompted, None)];
    }

    method ClearTurn(f: Fid)
      requires Valid()
      modifies `turn
      ensures Valid() && Abs() == Apply(old(Abs()), Section.Unslot(f))
    {
      if turn == Some(f) {
        turn := None;
      }
    }

    method AcceptTurn(f: Fid)
      requires Valid() && f in runs
      modifies `runs
      ensures Valid() && Abs() == Apply(old(Abs()), Section.Accept(f))
    {
      if runs[f].accepted {
        return;
      }
      var current: Option<nat> := None;
      if active {
        current := Some(inc);
      }
      runs := runs[f := runs[f].(accepted := true, inc := current)];
    }

    method EndTurn(f: Fid, end: Ended)
      requires Valid() && f in runs
      modifies `runs
      ensures Valid() && Abs() == Apply(old(Abs()), Section.End(f, end))
    {
      if runs[f].ended == Running {
        runs := runs[f := runs[f].(ended := end)];
      }
    }

    /******* openAgentCycle *******/

    method MintCycle(f: Fid, g: Gen)
      requires Valid() && f !in runs
      modifies `runs
      ensures Valid() && Abs() == Apply(old(Abs()), Section.Mint(f, g))
    {
      runs := runs[f := Fresh(Agent(g), if active then Some(inc) else None)];
    }

    method ReserveCycle(f: Fid, g: Gen) returns (reserved: bool)
      requires Valid()
      modifies `cycle
      ensures Valid() && Abs() == Apply(old(Abs()), Section.Reserve(f, g)) && reserved == CanReserve(old(Abs()), g)
    {
      if turn.Some? || cycle.Some? || closing || runtime != Some(g) {
        return false;
      }
      cycle := Some(f);
      reserved := true;
    }

    method ClearCycle(f: Fid)
      requires Valid()
      modifies `cycle
      ensures Valid() && Abs() == Apply(old(Abs()), Section.Uncycle(f))
    {
      if cycle == Some(f) {
        cycle := None;
      }
    }

    /******* cancel and callbacks *******/

    /** One more goroutine for the WaitGroup; a dialog can be cancelled through the session. */
    method Admit(cid: Cid, callback: Callback)
      requires Valid() && cid !in callbacks
      modifies `waiting, `dialogs, `callbacks
      ensures Valid() && callbacks == old(callbacks)[cid := callback]
    {
      waiting := waiting + 1;
      if callback.Dialog? {
        dialogs := dialogs + {cid};
      }
      callbacks := callbacks[cid := callback];
    }

    /** Marks the foreground cancelled; `interrupt` says whether a native interrupt is to be started as `cid`. */
    method Cancel(cid: Cid) returns (interrupt: bool)
      requires Valid() && cid !in callbacks
      requires (turn.Some? ==> turn.value in runs) && (cycle.Some? ==> cycle.value in runs)
      modifies `runs, `waiting, `dialogs, `callbacks
      ensures Valid() && Abs() == Apply(old(Abs()), Section.CancelSlot(cid))
      ensures var c := if turn.Some? then turn else cycle;
              var strikes := c.Some? && !old(runs)[c.value].cancelled && old(runs)[c.value].claimed.None?;
              && runs == (if strikes then old(runs)[c.value := old(runs)[c.value].(cancelled := true)] else old(runs))
              && (interrupt <==>
                    strikes && !old(runs)[c.value].settling && runtime.Some? && !closing && runtime.value !in ending)
              && callbacks == if interrupt then old(callbacks)[cid := Interrupt(c.value)] else old(callbacks)
    {
      CancelStrikes(Abs(), cid);
      var c := cycle;
      if turn.Some? {
        c := turn;
      }
      if c.None? || runs[c.value].cancelled || runs[c.value].claimed.Some? {
        return false;
      }
      interrupt := AdmitInterrupt(c.value, cid);
      runs := runs[c.value := runs[c.value].(cancelled := true)];
    }

    /** An interrupt of the run is admitted unless it is settling or no generation is left to interrupt. */
    method AdmitInterrupt(f: Fid, cid: Cid) returns (interrupt: bool)
      requires Valid() && cid !in callbacks && f in runs
      modifies `waiting, `dialogs, `callbacks
      ensures Valid() && (interrupt <==> !runs[f].settling && runtime.Some? && !closing && runtime.value !in ending)
      ensures callbacks == if interrupt then old(callbacks)[cid := Interrupt(f)] else old(callbacks)
    {
      interrupt := !runs[f].settling && runtime.Some? && !closing && runtime.value !in ending;
      if interrupt {
        Admit(cid, Interrupt(f));
      }
    }

    method RegisterDialog(f: Fid, cid: Cid) returns (admitted: bool)
      requires Valid() && cid !in callbacks
      requires (turn.Some? ==> turn.value in runs) && (cycle.Some? ==> cycle.value in runs)
      modifies `waiting, `dialogs, `callbacks
      ensures Valid() && Abs() == Apply(old(Abs()), Section.Register(f, cid))
      ensures admitted <==>
                && !closing && runtime.Some?
                && (turn.Some? ==> !runs[turn.value].cancelled && !runs[turn.value].settling)
                && (cycle.Some? ==> !runs[cycle.value].cancelled && !runs[cycle.value].settling)
      ensures callbacks == if admitted then old(callbacks)[cid := Dialog(f, false)] else old(callbacks)
    {
      if closing || runtime.None?
         || (turn.Some? && (runs[turn.value].cancelled || runs[turn.value].settling))
         || (cycle.Some? && (runs[cycle.value].cancelled || runs[cycle.value].settling))
      {
        return false;
      }
      Admit(cid, Dialog(f, false));
      admitted := true;
    }

    method CallbackDone(cid: Cid)
      requires Valid() && cid in callbacks
      modifies `waiting, `dialogs, `callbacks
      ensures Valid() && Abs() == Apply(old(Abs()), Section.Finish(cid))
      ensures callbacks == old(callbacks) - {cid} && waiting == old(waiting) - 1 && dialogs == old(dialogs) - {cid}
    {
      OneLess(callbacks, cid);
      waiting := waiting - 1;
      dialogs := dialogs - {cid};
      callbacks := callbacks - {cid};
    }

    /** The wait returns exactly when no admitted callback is left. */
    method Joined() returns (quiet: bool)
      requires Valid()
      ensures quiet <==> callbacks == map[]
    {
      quiet := waiting == 0;
      assert callbacks.Keys == {} ==> callbacks == map[];
    }

    /******* settlement *******/

    method BeginSettlement(f: Fid)
      requires Valid() && f in runs
      modifies `runs
      ensures Valid() && Abs() == Apply(old(Abs()), Section.Begin(f))
    {
      runs := runs[f := runs[f].(settling := true)];
    }

    method ClaimCancellation(f: Fid) returns (cancelled: bool)
      requires Valid() && f in runs
      modifies `runs
      ensures Valid() && Abs() == Apply(old(Abs()), Section.Claim(f)) && cancelled == old(runs[f].cancelled)
    {
      RunSections(Abs(), Section.Claim(f));
      cancelled := runs[f].cancelled;
      var run := runs[f].(claimed := Some(cancelled));
      if cancelled && !(run.kind.Prompted? && run.commitFailed) {
        run := run.(verdict := Some(Outcome.Cancelled));
      }
      assert run == ClaimRun(runs[f]);
      runs := runs[f := run];
    }

    /** The store's answer is `ok`; an ephemeral session never asks it. */
    method CommitMirror(ok: bool) returns (committed: bool)
      requires Valid()
      modifies `persisted
      ensures Valid() && Abs() == Apply(old(Abs()), Section.CommitAll(ok)) && committed == (ephemeral || ok)
    {
      if ephemeral {
        return true;
      }
      if !ok {
        return false;
      }
      persisted := true;
      committed := true;
    }

    method Idle(f: Fid, t: Terminal)
      requires Valid()
      modifies `runs
      ensures Valid() && Abs() == Apply(old(Abs()), Section.Idle(f, t))
    {
      if f in runs && active && runs[f].inc == Some(inc) {
        runs := runs[f := runs[f].(published := runs[f].published + [t])];
      }
    }

    /******* generations and the stream *******/

    method Bind(g: Gen) returns (refused: bool)
      requires Valid()
      modifies `runtime
      ensures Valid() && Abs() == Apply(old(Abs()), Section.Bound(g)) && refused == closing
    {
      refused := closing;
      if !refused {
        runtime := Some(g);
      }
    }

    method DropRuntime(g: Gen)
      requires Valid()
      modifies `runtime, `retired
      ensures Valid() && Abs() == Apply(old(Abs()), Section.Drop(g))
    {
      if runtime == Some(g) {
        runtime := None;
        retired := Some(g);
      }
    }

    method ForgetRetired(g: Gen)
      requires Valid()
      modifies `retired
      ensures Valid() && Abs() == Apply(old(Abs()), Section.Forget(g))
    {
      if retired == Some(g) {
        retired := None;
      }
    }

    /** openStream up to its publication, which holds openMu until FinishOpening. */
    method StartOpening(g: Gen, alive: bool) returns (passed: bool)
      requires Valid() && opener.None?
      modifies `opener
      ensures Valid() && passed == (MayOpen(old(Abs()), g) && alive)
      ensures Abs() == if passed then Apply(old(Abs()), Section.StartOpen(g)) else old(Abs())
    {
      if closing {
        return false;
      }
      if runtime != Some(g) || g in ending {
        return false;
      }
      if !alive {
        return false;
      }
      opener := Some(g);
      passed := true;
    }

    method FinishOpening(ok: bool)
      requires Valid() && opener.Some?
      modifies `opener, `inc, `active, `streamGen
      ensures Valid() && Abs() == Apply(old(Abs()), Section.FinishOpen(ok))
    {
      OpeningEnds(Abs(), ok);
      if ok {
        inc := inc + 1;
        active := true;
        streamGen := opener;
      }
      opener := None;
    }

    method FenceStream()
      requires Valid() && opener.None?
      modifies `active
      ensures Valid() && Abs() == Apply(old(Abs()), Section.FenceStream)
    {
      active := false;
    }

    /** runtimeEnded's first region: the cycle it will fail and the turn it will end. */
    method MarkEnding(g: Gen) returns (current: bool, failing: Option<Fid>, losing: Option<Fid>)
      requires Valid()
      modifies `ending, `cycle
      ensures Valid() && Abs() == Apply(old(Abs()), Section.StartEnding(g))
      ensures current == (old(runtime) == Some(g))
      ensures failing == (if current && !closing then old(cycle) else None) && losing == (if current then turn else None)
    {
      failing, losing := None, None;
      current := runtime == Some(g);
      if !current {
        return;
      }
      ending := ending + {g};
      losing := turn;
      if !closing {
        failing := cycle;
        cycle := None;
      }
    }

    /** runtimeEnded's last region, under both locks. */
    method Unbind(g: Gen)
      requires Valid() && opener.None?
      modifies `runtime, `retired, `active
      ensures Valid() && Abs() == Apply(old(Abs()), Section.Unbound(g))
    {
      if runtime == Some(g) {
        if !closing {
          active := false;
        }
        runtime := None;
        retired := Some(g);
      }
    }

    /******* close *******/

    method BeginClose() returns (joinEstablishment: bool, rt: Option<Gen>)
      requires Valid() && !closing && (turn.Some? ==> turn.value in runs)
      modifies `closing, `runs
      ensures Valid() && Abs() == Apply(old(Abs()), Section.StartClose)
      ensures joinEstablishment == !persisted && rt == runtime
    {
      closing := true;
      joinEstablishment := !persisted;
      rt := runtime;
      if turn.Some? {
        runs := runs[turn.value := runs[turn.value].(cancelled := true)];
      }
    }

    method TakeCycle() returns (c: Option<Fid>)
      requires Valid()
      modifies `cycle
      ensures Valid() && Abs() == Apply(old(Abs()), Section.TakeCycle) && c == old(cycle)
    {
      c := cycle;
      cycle := None;
    }

    /** What settleTurn reads of its run before the commit. */
    method JudgeTurn(f: Fid, native: Outcome) returns (verdict: Outcome, ended: Ended)
      requires Valid() && f in runs && runs[f].kind.Prompted?
      modifies `runs
      ensures Valid() && Abs() == Apply(old(Abs()), Section.Judge(f, native))
      ensures ended == runs[f].ended && runs[f].verdict == Some(verdict)
    {
      RunSections(Abs(), Section.Judge(f, native));
      ended := runs[f].ended;
      if runs[f].cancelled {
        verdict := Outcome.Cancelled;
      } else if ended == TransportEnded {
        verdict := Failed;
      } else {
        verdict := native;
      }
      runs := runs[f := runs[f].(native := Some(native), verdict := Some(verdict))];
    }

    /** The mirror commit of the run being settled, and what it makes of the run. */
    method CommitFor(f: Fid, ok: bool) returns (committed: bool)
      requires Valid() && f in runs
      modifies `persisted, `runs
      ensures Valid() && Abs() == Apply(old(Abs()), Section.Commit(f, ok)) && committed == (ephemeral || ok)
      ensures runs == old(runs)[f := CommitRun(old(runs[f]), committed)]
    {
      CommitsRun(Abs(), f, ok);
      committed := ephemeral || ok;
      persisted := persisted || (ok && !ephemeral);
      if committed {
        runs := runs[f := runs[f].(durable := true)];
      } else {
        runs := runs[f := runs[f].(commitFailed := true, verdict := if runs[f].kind.Prompted? then Some(Failed) else runs[f].verdict)];
      }
    }

    /******* The other goroutines, between two regions *******/

    method OthersBesideTurn(f: Fid, g: Gen, wait: Wait)
      requires Valid() && turn == Some(f) && NotAhead(Abs(), f)
      modifies this
      ensures Valid() && RelyTurn(old(Abs()), Abs(), f, g)
      ensures (wait.Callbacks? ==> callbacks == map[]) && (wait.Opening? ==> opener.None?)
    {
      if wait.Callbacks? {
        waiting, dialogs, callbacks := 0, {}, map[];
      } else if wait.Opening? {
        opener := None;
      }
    }

    /******* settleTurn *******/

    /** A turn in the slot whose prompt is settling it. */
    ghost predicate Settles(f: Fid)
      reads this
    {
      && Valid() && turn == Some(f) && f in runs && NotAhead(Abs(), f)
      && runs[f].kind.Prompted? && runs[f].accepted && runs[f].ended != Running
    }

    /** beginSettlement: from here on no callback runs and none is admitted. */
    method JoinTurn(f: Fid, g: Gen)
      requires Settles(f)
      modifies this
      ensures Settles(f) && callbacks == map[] && runs[f].settling
      ensures runs[f] == old(runs[f]).(settling := true, cancelled := runs[f].cancelled) && (old(runs[f].cancelled) ==> runs[f].cancelled)
    {
      BeginSettlement(f);
      OthersBesideTurn(f, g, Callbacks);
    }

    /** The first verdict, read from the run's cancellation and end. */
    method DecideTurn(f: Fid, g: Gen, native: Outcome) returns (verdict: Outcome, ended: Ended)
      requires Settles(f) && Unsettled(runs[f])
      modifies this
      ensures Settles(f) && Carries(old(Abs()), Abs(), f, g)
      ensures ended == old(runs[f].ended) && verdict == FirstVerdict(ended, native, old(runs[f].cancelled))
      ensures runs[f] == old(runs[f]).(native := Some(native), verdict := Some(verdict), cancelled := runs[f].cancelled)
      ensures old(runs[f].cancelled) ==> runs[f].cancelled
    {
      verdict, ended := JudgeTurn(f, native);
      OthersBesideTurn(f, g, Nothing);
    }

    method CommitTurn(f: Fid, g: Gen, ok: bool) returns (committed: bool)
      requires Settles(f)
      modifies this
      ensures Settles(f) && Carries(old(Abs()), Abs(), f, g) && committed == (ephemeral || ok)
      ensures runs[f] == CommitRun(old(runs[f]), committed).(cancelled := runs[f].cancelled) && (old(runs[f].cancelled) ==> runs[f].cancelled)
    {
      committed := CommitFor(f, ok);
      OthersBesideTurn(f, g, Nothing);
    }

    /** Fences the stream, then unbinds the generation: by then nothing of the run can be published. */
    method LoseTurn(f: Fid, g: Gen)
      requires Settles(f)
      modifies this
      ensures Settles(f) && Carries(old(Abs()), Abs(), f, g) && Dead(Abs(), f) && runtime != Some(g)
      ensures runs[f] == old(runs[f]).(cancelled := runs[f].cancelled) && (old(runs[f].cancelled) ==> runs[f].cancelled)
    {
      FenceBesideTurn(f, g);
      DropRuntime(g);
      OthersBesideTurn(f, g, Nothing);
    }

    method FenceBesideTurn(f: Fid, g: Gen)
      requires Settles(f)
      modifies this
      ensures Settles(f) && Carries(old(Abs()), Abs(), f, g) && Dead(Abs(), f)
      ensures runs[f] == old(runs[f]).(cancelled := runs[f].cancelled) && (old(runs[f].cancelled) ==> runs[f].cancelled)
    {
      OthersBesideTurn(f, g, Opening);
      FenceStream();
      OthersBesideTurn(f, g, Nothing);
    }

    method ClaimTurn(f: Fid, g: Gen) returns (claim: bool)
      requires Settles(f)
      modifies this
      ensures Settles(f) && Carries(old(Abs()), Abs(), f, g) && (old(runs[f].cancelled) ==> claim)
      ensures runs[f] == ClaimRun(old(runs[f])).(cancelled := runs[f].cancelled) && claim == old(runs[f].cancelled)
      ensures old(runs[f].cancelled) ==> runs[f].cancelled
    {
      claim := ClaimCancellation(f);
      OthersBesideTurn(f, g, Nothing);
    }

    method PublishTurn(f: Fid, g: Gen, verdict: Outcome)
      requires Settles(f)
      modifies this
      ensures Settles(f) && Carries(old(Abs()), Abs(), f, g)
      ensures runs[f] == old(runs[f]).(published := runs[f].published, cancelled := runs[f].cancelled)
      ensures old(runs[f].cancelled) ==> runs[f].cancelled
      ensures runs[f].published == old(runs[f].published) + if old(Live(Abs(), f)) then [Terminal(verdict, Settlement)] else []
      ensures Live(Abs(), f) ==> old(Live(Abs(), f))
    {
      Idle(f, Terminal(verdict, Settlement));
      OthersBesideTurn(f, g, Nothing);
    }

    /** settleTurn up to the claim: judged, and then committed or lost. */
    method CommitOrLose(f: Fid, g: Gen, native: Outcome, ok: bool) returns (verdict: Outcome, commitFailed: bool)
      requires Settles(f) && Unsettled(runs[f]) && callbacks == map[] && runs[f].settling
      modifies this
      ensures Settles(f) && callbacks == map[] && runs[f].settling && (old(runs[f].cancelled) ==> runs[f].cancelled)
      ensures var v := runs[f];
              && v.inc == old(runs[f].inc) && v.ended == old(runs[f].ended) && v.native == Some(native) && v.claimed.None? && v.published == []
              && v.commitFailed == commitFailed && v.verdict == Some(verdict)
              && (commitFailed <==> v.ended == Settled && !ephemeral && !ok)
              && (v.durable <==> old(runs[f].durable) || (v.ended == Settled && !commitFailed))
      ensures commitFailed ==> verdict == Failed
      ensures !commitFailed ==> verdict == FirstVerdict(runs[f].ended, native, runs[f].cancelled && verdict == Outcome.Cancelled)
      ensures if commitFailed || runs[f].ended == TransportEnded then Dead(Abs(), f) && runtime != Some(g) else runs[f].durable
    {
      var ended;
      verdict, ended := DecideTurn(f, g, native);
      commitFailed := false;
      if ended == Settled {
        var committed := CommitTurn(f, g, ok);
        if !committed {
          LoseTurn(f, g);
          commitFailed := true;
          verdict := Failed;
        }
      }
      if ended == TransportEnded {
        LoseTurn(f, g);
      }
    }

    /** settleTurn, for a turn whose end is known: the verdict variable ends as the outcome the settlement decides; the
        terminal event carries it and appears only after a successful commit of this run; a failed commit or a lost
        transport fences the stream, unbinds the generation and publishes nothing; and no callback is left. */
    method SettleTurn(f: Fid, g: Gen, native: Outcome, ok: bool) returns (verdict: Outcome)
      requires Settles(f) && Unsettled(runs[f])
      modifies this
      ensures Settles(f) && callbacks == map[]
      ensures runs[f].claimed.Some? && runs[f].verdict == Some(verdict)
      ensures runs[f].commitFailed ==> verdict == Failed
      ensures !runs[f].commitFailed && runs[f].claimed == Some(true) ==> verdict == Outcome.Cancelled
      ensures !runs[f].commitFailed && runs[f].claimed == Some(false) ==>
                verdict == if runs[f].ended == TransportEnded then Failed else native
      ensures runs[f].ended == old(runs[f].ended) && runs[f].inc == old(runs[f].inc)
      ensures (old(runs[f].cancelled) ==> runs[f].claimed == Some(true)) && (runs[f].claimed == Some(true) ==> runs[f].cancelled)
      ensures runs[f].commitFailed <==> runs[f].ended == Settled && !ephemeral && !ok
      ensures runs[f].durable <==> old(runs[f].durable) || (runs[f].ended == Settled && !runs[f].commitFailed)
      ensures runs[f].published != [] ==>
                runs[f].durable && runs[f].ended == Settled && runs[f].published == [Terminal(verdict, Settlement)]
      ensures runs[f].commitFailed || runs[f].ended == TransportEnded ==>
                runs[f].published == [] && Dead(Abs(), f) && runtime != Some(g)
      ensures Live(Abs(), f) ==> runs[f].published == [Terminal(verdict, Settlement)]
    {
      JoinTurn(f, g);
      var commitFailed;
      verdict, commitFailed := CommitOrLose(f, g, native, ok);
      var claim := ClaimTurn(f, g);
      if claim && !commitFailed {
        verdict := Outcome.Cancelled;
      }
      PublishTurn(f, g, verdict);
    }

    /******* prompt *******/

    /** A turn just installed, or still before its acceptance. */
    ghost predicate Waits(f: Fid)
      reads this
    {
      && Valid() && turn == Some(f) && f in runs && runs[f].kind.Prompted? && NotAhead(Abs(), f)
      && Unsettled(runs[f])
    }

    /** From its acceptance on the turn's events carry the incarnation active at that moment. */
    method Accepts(f: Fid, g: Gen)
      requires Waits(f)
      modifies this
      ensures Waits(f) && runs[f].accepted && Carried(old(Abs()), runs[f].inc, f)
    {
      AcceptTurn(f);
      ghost var accepted := runs[f];
      OthersBesideTurn(f, g, Nothing);
      assert Ages(accepted, runs[f]);
    }

    /** Acceptance, and the wait for the end that the pump or a lost transport gives the turn. */
    method AwaitEnd(f: Fid, g: Gen, end: Ended)
      requires Waits(f) && end != Running
      modifies this
      ensures Waits(f) && Settles(f) && Carried(old(Abs()), runs[f].inc, f)
    {
      Accepts(f, g);
      EndTurn(f, end);
    }

    method Enter(f: Fid, g: Gen) returns (busy: bool)
      requires Valid() && turn.None? && f !in runs
      modifies this
      ensures Valid() && busy == old(cycle).Some?
      ensures if busy then runs == old(runs) && turn.None? else Waits(f)
    {
      busy := InstallTurn(f);
      if !busy {
        OthersBesideTurn(f, g, Nothing);
      }
    }

    /** A prompt that holds the gate. One that leaves before dispatch is unslotted and never settled; a dispatched one is
        accepted, waits for its end and is settled. */
    method Prompt(f: Fid, g: Gen, leaves: bool, end: Ended, native: Outcome, ok: bool)
      returns (answer: Option<Outcome>, ghost at: Shared)
      requires Valid() && turn.None? && f !in runs && end != Running
      modifies this
      ensures Valid() && turn.None?
      ensures old(cycle).Some? ==> answer.None? && runs == old(runs)
      ensures old(cycle).None? ==> f in runs && (answer.Some? <==> !leaves)
      ensures answer.None? && f in runs && old(cycle).None? ==> Unsettled(runs[f])
      ensures answer.Some? && runs[f].commitFailed ==> answer.value == Failed
      ensures answer.Some? && !runs[f].commitFailed && runs[f].claimed == Some(true) ==> answer.value == Outcome.Cancelled
      ensures answer.Some? && !runs[f].commitFailed && runs[f].claimed == Some(false) ==>
                answer.value == if runs[f].ended == TransportEnded then Failed else native
      ensures answer.Some? ==> at.turn == Some(f) && Carried(at, runs[f].inc, f)
      ensures answer.Some? ==>
                && runs[f].accepted && runs[f].ended != Running && runs[f].claimed.Some?
                && (runs[f].commitFailed <==> runs[f].ended == Settled && !ephemeral && !ok)
                && (runs[f].published != [] ==> runs[f].durable && runs[f].published == [Terminal(answer.value, Settlement)])
    {
      answer := None;
      var busy := Enter(f, g);
      at := Abs();
      if busy {
        return;
      }
      if !leaves {
        AwaitEnd(f, g, end);
        var verdict := SettleTurn(f, g, native, ok);
        answer := Some(verdict);
      }
      ClearTurn(f);
    }

    /******* settleAgentCycle *******/

    /** While this pump settles the run: what is assumed of the others holds given careful samples and completed joins
        (SessionRely.StepReliesRun). */
    method OthersBesideRun(f: Fid, g: Gen, wait: Wait)
      requires SettlesRun(f)
      modifies this
      ensures SettlesRun(f) && RelyRun(old(Abs()), Abs(), f, g)
      ensures (wait.Callbacks? ==> callbacks == map[]) && (wait.Opening? ==> opener.None?)
    {
      if wait.Callbacks? {
        waiting, dialogs, callbacks := 0, {}, map[];
      } else if wait.Opening? {
        opener := None;
      }
    }

    ghost predicate SettlesRun(f: Fid)
      reads this
    {
      Valid() && f in runs && runs[f].kind.Agent? && NotAhead(Abs(), f)
    }

    method JudgeCycle(f: Fid, native: Outcome)
      requires Valid() && f in runs && runs[f].kind.Agent?
      modifies `runs
      ensures Valid() && Abs() == Apply(old(Abs()), Section.Judge(f, native))
    {
      runs := runs[f := runs[f].(native := Some(native), verdict := Some(if runs[f].cancelled then Outcome.Cancelled else native))];
    }

    /** From here on, while the stream is live, no callback runs and none is admitted. */
    method JoinCycle(f: Fid, g: Gen)
      requires SettlesRun(f)
      modifies this
      ensures SettlesRun(f) && runs[f].settling && (old(runs[f].cancelled) ==> runs[f].cancelled) && callbacks == map[]
      ensures Live(Abs(), f) ==> runs[f].published == old(runs[f].published)
    {
      BeginSettlement(f);
      OthersBesideRun(f, g, Callbacks);
    }

    method CommitCycle(f: Fid, g: Gen, ok: bool) returns (committed: bool)
      requires SettlesRun(f)
      modifies this
      ensures SettlesRun(f) && CarriesRun(old(Abs()), Abs(), f, g) && committed == (ephemeral || ok)
      ensures Live(Abs(), f) ==> runs[f].verdict == old(runs[f].verdict) && (committed ==> runs[f].durable)
    {
      committed := CommitFor(f, ok);
      OthersBesideRun(f, g, Nothing);
    }

    /** A run whose commit failed: its stream is fenced, then its generation unbound. */
    method LoseRun(f: Fid, g: Gen)
      requires SettlesRun(f)
      modifies this
      ensures SettlesRun(f) && CarriesRun(old(Abs()), Abs(), f, g) && Dead(Abs(), f) && runtime != Some(g)
    {
      FenceBesideRun(f, g);
      DropRuntime(g);
      OthersBesideRun(f, g, Nothing);
    }

    method FenceBesideRun(f: Fid, g: Gen)
      requires SettlesRun(f)
      modifies this
      ensures SettlesRun(f) && CarriesRun(old(Abs()), Abs(), f, g) && Dead(Abs(), f)
    {
      OthersBesideRun(f, g, Opening);
      FenceStream();
      OthersBesideRun(f, g, Nothing);
    }

    method ClaimCycle(f: Fid, g: Gen) returns (claim: bool)
      requires SettlesRun(f)
      modifies this
      ensures SettlesRun(f) && CarriesRun(old(Abs()), Abs(), f, g) && claim == old(runs[f].cancelled)
      ensures Live(Abs(), f) ==> runs[f].claimed == Some(claim) && (claim ==> runs[f].verdict == Some(Outcome.Cancelled))
      ensures Live(Abs(), f) && !claim ==> runs[f].verdict == old(runs[f].verdict)
      ensures Live(Abs(), f) && old(runs[f].durable) ==> runs[f].durable
    {
      claim := ClaimCancellation(f);
      OthersBesideRun(f, g, Nothing);
    }

    method CommitOrFence(f: Fid, g: Gen, ok: bool)
      requires SettlesRun(f)
      modifies this
      ensures SettlesRun(f) && CarriesRun(old(Abs()), Abs(), f, g)
      ensures Live(Abs(), f) ==> runs[f].verdict == old(runs[f].verdict) && runs[f].durable
      ensures !ephemeral && !ok ==> Dead(Abs(), f) && runtime != Some(g)
    {
      var committed := CommitCycle(f, g, ok);
      if !committed {
        LoseRun(f, g);
      }
    }

    method PublishCycle(f: Fid, verdict: Outcome)
      requires SettlesRun(f)
      modifies `runs, `cycle
      ensures SettlesRun(f) && cycle != Some(f) && (Live(Abs(), f) <==> old(Live(Abs(), f)))
      ensures runs[f] == old(runs[f]).(published := old(runs[f]).published + if Live(Abs(), f) then [Terminal(verdict, Settlement)] else [])
    {
      Idle(f, Terminal(verdict, Settlement));
      ClearCycle(f);
    }

    method ClaimAndPublish(f: Fid, g: Gen, native: Outcome) returns (verdict: Outcome)
      requires SettlesRun(f) && runs[f].settling
      modifies this
      ensures SettlesRun(f) && cycle != Some(f) && (old(runs[f].cancelled) ==> verdict == Outcome.Cancelled)
      ensures Live(Abs(), f) ==> old(Live(Abs(), f)) && runs[f].claimed.Some?
      ensures Live(Abs(), f) ==> verdict == (if runs[f].claimed.value then Outcome.Cancelled else native)
      ensures Live(Abs(), f) ==> runs[f].verdict == if runs[f].claimed.value then Some(verdict) else old(runs[f].verdict)
      ensures Live(Abs(), f) ==> (runs[f].claimed.value || !old(runs[f].cancelled)) && (old(runs[f].durable) ==> runs[f].durable)
      ensures Live(Abs(), f) ==> runs[f].published == old(runs[f].published) + [Terminal(verdict, Settlement)]
      ensures (old(Dead(Abs(), f)) ==> Dead(Abs(), f)) && (old(runtime) != Some(g) ==> runtime != Some(g))
    {
      var claim := ClaimCycle(f, g);
      verdict := if claim then Outcome.Cancelled else native;
      PublishCycle(f, verdict);
    }

    /** settleAgentCycle past its join. */
    method EndCycle(f: Fid, g: Gen, native: Outcome, ok: bool) returns (verdict: Outcome)
      requires SettlesRun(f) && runs[f].settling
      modifies this
      ensures SettlesRun(f) && cycle != Some(f) && (old(runs[f].cancelled) ==> verdict == Outcome.Cancelled)
      ensures Live(Abs(), f) ==>
                && runs[f].durable && runs[f].claimed.Some? && runs[f].verdict == Some(verdict)
                && verdict == (if runs[f].claimed.value then Outcome.Cancelled else native)
                && runs[f].published == old(runs[f].published) + [Terminal(verdict, Settlement)]
      ensures Live(Abs(), f) ==> old(Live(Abs(), f))
      ensures !ephemeral && !ok ==> Dead(Abs(), f) && runtime != Some(g)
    {
      JudgeCycle(f, native);
      CommitOrFence(f, g, ok);
      verdict := ClaimAndPublish(f, g, native);
    }

    /** settleAgentCycle, given careful samples and completed joins beside it: while its stream stays live the run's
        terminal event follows its commit and carries the claimed verdict; after a failed commit the stream is fenced and the generation unbound before anything is published. */
    method SettleAgentCycle(f: Fid, g: Gen, native: Outcome, ok: bool) returns (verdict: Outcome)
      requires SettlesRun(f)
      modifies this
      ensures SettlesRun(f) && cycle != Some(f) && (old(runs[f].cancelled) ==> verdict == Outcome.Cancelled)
      ensures Live(Abs(), f) ==>
                && runs[f].durable && runs[f].claimed.Some? && runs[f].verdict == Some(verdict)
                && verdict == (if runs[f].claimed.value then Outcome.Cancelled else native)
                && runs[f].published == old(runs[f].published) + [Terminal(verdict, Settlement)]
      ensures !ephemeral && !ok ==> Dead(Abs(), f) && runtime != Some(g)
    {
      JoinCycle(f, g);
      verdict := EndCycle(f, g, native, ok);
    }

    /******* openAgentCycle and openStream *******/

    method Others(g: Gen, wait: Wait)
      requires Valid() && IncsBehind(Abs())
      modifies this
      ensures Valid() && IncsBehind(Abs()) && RelyGone(old(Abs()), Abs(), g)
      ensures (wait.Callbacks? ==> callbacks == map[]) && (wait.Opening? ==> opener.None?)
    {
      if wait.Callbacks? {
        waiting, dialogs, callbacks := 0, {}, map[];
      } else if wait.Opening? {
        opener := None;
      }
    }

    /** openAgentCycle: the slot is taken exactly where it is free and the generation bound outside a close, as found at
        `at`, and the cycle is handed on exactly if it then still holds the slot so. */
    method OpenAgentCycle(f: Fid, g: Gen) returns (given: bool, ghost at: Shared)
      requires Valid() && IncsBehind(Abs()) && f !in runs
      modifies this
      ensures Valid() && f in runs && runs[f].kind == Agent(g) && runs[f].inc == if old(active) then Some(old(inc)) else None
      ensures Evolves(old(Abs()), at) && Evolves(at, Abs())
      ensures given <==>
                && at.turn.None? && at.cycle.None? && !at.closing && at.runtime == Some(g)
                && runtime == Some(g) && cycle == Some(f) && !closing
    {
      MintCycle(f, g);
      Others(g, Nothing);
      at := Abs();
      assert Evolves(old(Abs()), at) by { MintEvolves(old(Abs()), at, f, g); }
      var reserved := ReserveCycle(f, g);
      if !reserved {
        return false, at;
      }
      Others(g, Nothing);
      given := runtime == Some(g) && cycle == Some(f) && !closing;
    }

    /** openStream: it publishes a new incarnation exactly for a live, bound, unending generation outside a close, as
        found at `at` under both locks, if the host takes it. */
    method OpenStream(g: Gen, alive: bool, ok: bool) returns (published: bool, ghost at: Shared)
      requires Valid() && IncsBehind(Abs())
      modifies this
      ensures Valid() && opener.None?
      ensures Evolves(old(Abs()), at) && at.opener.None?
      ensures published <==> ok && alive && !at.closing && at.runtime == Some(g) && g !in at.ending
      ensures published ==> active && streamGen == Some(g) && inc > old(inc)
      ensures old(closing) || !alive ==> !published
    {
      var passed;
      passed, at := HoldOpening(g, alive);
      if !passed {
        return false, at;
      }
      FinishOpening(ok);
      published := ok;
    }

    /** Takes openMu, passes the checks, and keeps openMu while the opening is published. */
    method HoldOpening(g: Gen, alive: bool) returns (passed: bool, ghost at: Shared)
      requires Valid() && IncsBehind(Abs())
      modifies this
      ensures Valid() && inc >= old(inc) && opener == if passed then Some(g) else None
      ensures Evolves(old(Abs()), at) && at.opener.None?
      ensures passed <==> alive && !at.closing && at.runtime == Some(g) && g !in at.ending
    {
      Others(g, Opening);
      at := Abs();
      passed := StartOpening(g, alive);
      if passed {
        OthersBesideOpening(g);
      }
    }

    method OthersBesideOpening(g: Gen)
      requires Valid() && IncsBehind(Abs())
      modifies this
      ensures Valid() && IncsBehind(Abs()) && RelyOpening(old(Abs()), Abs(), g)
    {
    }

    /******* runtimeEnded *******/

    /** runtimeEnded: no callback is left when, at `at`, the cycle it took is failed and the turn it found is given its
        end; then the generation is unbound, its stream fenced unless a close is under way. */
    method RuntimeEnded(g: Gen) returns (unbound: bool, ghost at: Shared)
      requires Valid() && IncsBehind(Abs())
      modifies this
      ensures Valid() && runtime != Some(g) && (unbound ==> retired == Some(g) && (active ==> closing))
      ensures old(runtime) != Some(g) ==> !unbound && Abs() == old(Abs())
      ensures old(runtime) == Some(g) ==> Evolves(old(Abs()), at) && at.callbacks == map[]
      ensures old(runtime) == Some(g) ==>
                Buries(at, Abs(), if old(closing) then None else old(cycle), old(turn))
    {
      var current, failing, losing := MarkEnding(g);
      at := Abs();
      if !current {
        return false, at;
      }
      ghost var marked := Abs();
      unbound, at := EndMarked(g, failing, losing);
      EndingEvolves(old(Abs()), marked, at, g);
    }

    /** runtimeEnded past its first region. */
    method EndMarked(g: Gen, failing: Option<Fid>, losing: Option<Fid>) returns (unbound: bool, ghost at: Shared)
      requires Valid() && IncsBehind(Abs())
      modifies this
      ensures Valid() && runtime != Some(g) && (unbound ==> retired == Some(g) && (active ==> closing))
      ensures Evolves(old(Abs()), at) && at.callbacks == map[] && Buries(at, Abs(), failing, losing)
    {
      Others(g, Callbacks);
      at := Abs();
      EndSampled(failing, losing);
      ghost var ended := Abs();
      Others(g, Opening);
      BuriesOn(at, ended, Abs(), failing, losing);
      unbound := runtime == Some(g);
      Unbind(g);
    }

    /** Fails the cycle and ends the turn, and leaves the turn time to publish. */
    method EndSampled(failing: Option<Fid>, losing: Option<Fid>)
      requires Valid() && IncsBehind(Abs())
      modifies `runs
      ensures Valid() && IncsBehind(Abs()) && Buries(old(Abs()), Abs(), failing, losing)
    {
      if failing.Some? {
        PublishFor(failing.value, Terminal(Failed, Death));
      }
      ghost var failed := runs;
      if losing.Some? && losing.value in runs {
        RunSections(Abs(), Section.End(losing.value, TransportEnded));
        EndTurn(losing.value, TransportEnded);
      }
      BuriesNow(old(Abs()), failed, Abs(), failing, losing);
    }

    /** A terminal event reaches the host exactly if the run's stream is live. */
    method PublishFor(f: Fid, t: Terminal)
      requires Valid() && IncsBehind(Abs())
      modifies `runs
      ensures Valid() && IncsBehind(Abs()) && runs.Keys == old(runs).Keys
      ensures runs == if old(Live(Abs(), f)) then old(runs)[f := old(runs)[f].(published := old(runs)[f].published + [t])] else old(runs)
    {
      RunSections(Abs(), Section.Idle(f, t));
      Idle(f, t);
    }

    /******* the relaunch *******/

    /** launch, from the wait for the retired process on: a generation is bound exactly if that process, where there is
        one, has exited, and no close has begun by `at`. */
    method Relaunch(g: Gen, exited: bool) returns (bound: bool, ghost at: Shared)
      requires Valid() && IncsBehind(Abs())
      modifies this
      ensures Valid() && (bound ==> runtime == Some(g)) && Evolves(old(Abs()), at)
      ensures bound <==> (old(retired).Some? ==> exited) && !at.closing
      ensures old(closing) ==> !bound
    {
      at := Abs();
      EvolvesItself(at);
      var waited := retired;
      if waited.Some? {
        Others(g, Nothing);
        at := Abs();
        if !exited {
          return false, at;
        }
        ForgetRetired(waited.value);
      }
      Others(g, Nothing);
      EvolvesOn(old(Abs()), at, Abs());
      at := Abs();
      var refused := Bind(g);
      bound := !refused;
    }

    /******* close *******/

    method OthersBesideClose(g: Gen, wait: Wait)
      requires Valid() && IncsBehind(Abs())
      modifies this
      ensures Valid() && IncsBehind(Abs()) && RelyGone(old(Abs()), Abs(), g) && NoneClosed(old(Abs()), Abs())
      ensures (wait.Callbacks? ==> callbacks == map[]) && (wait.Opening? ==> opener.None?)
    {
      if wait.Callbacks? {
        waiting, dialogs, callbacks := 0, {}, map[];
      } else if wait.Opening? {
        opener := None;
      }
    }

    method StopRuntime(g: Gen)
      requires Valid() && IncsBehind(Abs())
      modifies this
      ensures Valid() && IncsBehind(Abs()) && RelyGone(old(Abs()), Abs(), g) && NoneClosed(old(Abs()), Abs()) && runtime != Some(g)
    {
      OthersBesideClose(g, Nothing);
      DropRuntime(g);
    }

    /** close up to its commit: nothing is admitted, no callback is left, the generation is stopped and the turn it found
        is cancelled. */
    method CloseDown() returns (rt: Option<Gen>)
      requires Valid() && IncsBehind(Abs()) && !closing && (turn.Some? ==> turn.value in runs)
      modifies this
      ensures Valid() && IncsBehind(Abs()) && closing && callbacks == map[]
      ensures rt == old(runtime) && (rt.Some? ==> runtime != rt)
      ensures Passes(old(Abs()), Abs()) && CancelledTurn(old(Abs()), Abs())
    {
      var joins;
      joins, rt := BeginClose();
      CloseBegins(old(Abs()));
      CloseStops(rt);
    }

    /** Joins the callbacks and stops the generation. */
    method CloseStops(rt: Option<Gen>)
      requires Valid() && IncsBehind(Abs()) && closing
      modifies this
      ensures Valid() && IncsBehind(Abs()) && closing && callbacks == map[] && (rt.Some? ==> runtime != rt)
      ensures Passes(old(Abs()), Abs())
    {
      OthersBesideClose(0, Callbacks);
      if rt.Some? {
        ghost var joined := Abs();
        StopRuntime(rt.value);
        PassesOn(old(Abs()), joined, Abs());
      }
    }

    /** The whole ladder. What the session is found to owe is committed; then, at `before`, the cycle is taken from the
        slot, and at `at` ended as cancelled if it is still live and no commit failed: no other run is ended in the
        name of the close, and that one once. Last, the stream is fenced, with no cycle, no callback and no opening. */
    method Close(ok: bool) returns (failed: bool, ghost owed: bool, ghost before: Shared, ghost at: Shared)
      requires Valid() && IncsBehind(Abs()) && !closing && (turn.Some? ==> turn.value in runs)
      modifies this
      ensures Valid() && closing && callbacks == map[] && cycle.None? && !active && opener.None?
      ensures (old(persisted) ==> owed) && (failed <==> owed && !ephemeral && !ok)
      ensures old(turn).Some? ==> old(turn).value in runs && runs[old(turn).value].cancelled
      ensures Evolves(old(Abs()), before) && Evolves(before, at) && at.callbacks == map[] && at.cycle.None?
      ensures owed && !failed && !ephemeral ==> before.persisted
      ensures Cancels(old(Abs()), Abs(), before.cycle, at, failed)
    {
      var rt := CloseDown();
      ghost var down := Abs();
      failed, owed := CommitOwed(ok);
      ghost var committed := Abs();
      PassesOn(old(Abs()), down, committed);
      before, at := CloseOut(failed);
      LadderFrom(old(Abs()), down, committed, before, at, Abs(), failed);
    }

    /** The commit of a session found persisted. */
    method CommitOwed(ok: bool) returns (failed: bool, ghost owed: bool)
      requires Valid() && IncsBehind(Abs()) && closing && callbacks == map[]
      modifies this
      ensures Valid() && IncsBehind(Abs()) && closing && callbacks == map[] && Passes(old(Abs()), Abs())
      ensures (old(persisted) ==> owed) && (failed <==> owed && !ephemeral && !ok)
      ensures owed ==> persisted
    {
      OthersBesideClose(0, Nothing);
      owed := persisted;
      failed := false;
      if persisted {
        var committed := CommitMirror(ok);
        failed := !committed;
      }
    }

    method CloseOut(failed: bool) returns (ghost before: Shared, ghost at: Shared)
      requires Valid() && IncsBehind(Abs()) && closing && callbacks == map[]
      modifies this
      ensures Valid() && closing && callbacks == map[] && cycle.None? && !active && opener.None?
      ensures Ladder(old(Abs()), before, at, Abs(), failed)
    {
      before, at := EndTaken(failed);
      ghost var ended := Abs();
      OthersBesideClose(0, Opening);
      LadderOn(old(Abs()), before, at, ended, Abs(), failed);
      FenceStream();
    }

    /** Takes the cycle, and cancels it unless the commit failed. */
    method EndTaken(failed: bool) returns (ghost before: Shared, ghost at: Shared)
      requires Valid() && IncsBehind(Abs()) && closing && callbacks == map[]
      modifies this
      ensures Valid() && IncsBehind(Abs()) && closing && callbacks == map[] && cycle.None?
      ensures Ladder(old(Abs()), before, at, Abs(), failed)
    {
      OthersBesideClose(0, Nothing);
      before := Abs();
      var c := TakeCycle();
      ghost var took := Abs();
      OthersBesideClose(0, Nothing);
      at := Abs();
      if !failed && c.Some? {
        PublishFor(c.value, Terminal(Outcome.Cancelled, Closing));
      }
      LadderEnds(old(Abs()), before, took, at, Abs(), failed);
    }
  }

  /** The incarnation a run accepted in `s` carries: the one active there, unless the run was accepted before. */
  predicate Carried(s: Shared, inc: Option<nat>, f: Fid) {
    inc == if Of(s, f).accepted then Of(s, f).inc else if s.active then Some(s.inc) else None
  }

  /** What the others and the ladder's own regions keep on the way to the event. */
  ghost predicate Passes(s: Shared, t: Shared) {
    Evolves(s, t) && NoneClosed(s, t) && (s.persisted ==> t.persisted)
  }

  ghost predicate CancelledTurn(s: Shared, t: Shared) {
    s.turn.Some? ==> s.turn.value in t.fg && t.fg[s.turn.value].cancelled
  }

  /** From `s` on, the cycle still live there is failed, and the turn has an end, a lost transport where it had none. */
  ghost predicate Buries(s: Shared, t: Shared, failing: Option<Fid>, losing: Option<Fid>) {
    && (failing.Some? && Live(s, failing.value) ==>
          && failing.value in t.fg
          && s.fg[failing.value].published + [Terminal(Failed, Death)] <= t.fg[failing.value].published)
    && (losing.Some? && losing.value in s.fg ==>
          && losing.value in t.fg
          && t.fg[losing.value].ended == if s.fg[losing.value].ended == Running then TransportEnded else s.fg[losing.value].ended)
  }

  /** Between `s` and `t` the close has ended the cycle it took, if that was live at `at` and no commit failed, and
      nothing else. */
  ghost predicate Cancels(s: Shared, t: Shared, taken: Option<Fid>, at: Shared, failed: bool) {
    && (forall f: Fid :: Closings(Of(t, f).published) ==
                         Closings(Of(s, f).published) + if !failed && taken == Some(f) && Live(at, f) then 1 else 0)
    && (!failed && taken.Some? && Live(at, taken.value) ==>
          && taken.value in t.fg
          && at.fg[taken.value].published + [Terminal(Outcome.Cancelled, Closing)] <= t.fg[taken.value].published)
  }

  /** The verdict before the commit: a cancellation, a lost transport, or the native outcome. */
  function FirstVerdict(ended: Ended, native: Outcome, cancelled: bool): Outcome {
    if cancelled then Outcome.Cancelled else if ended == TransportEnded then Failed else native
  }

  /** What a settling turn keeps from one region to the next: no callback, a dead stream, an unbound generation. */
  ghost predicate Carries(s: Shared, t: Shared, f: Fid, g: Gen) {
    && (s.callbacks == map[] && Of(s, f).settling ==> t.callbacks == map[])
    && (Dead(s, f) ==> Dead(t, f))
    && (s.runtime != Some(g) ==> t.runtime != Some(g))
  }

  /** The same for a live agent run, with what only its settlement rewrites. */
  ghost predicate CarriesRun(s: Shared, t: Shared, f: Fid, g: Gen) {
    && (Live(t, f) ==> Live(s, f))
    && (Live(t, f) && Of(s, f).settling ==>
          && Of(t, f).published == Of(s, f).published && Of(t, f).native == Of(s, f).native
          && (s.callbacks == map[] ==> t.callbacks == map[]))
    && (Of(s, f).cancelled ==> Of(t, f).cancelled) && (Of(s, f).settling ==> Of(t, f).settling)
    && (Dead(s, f) ==> Dead(t, f))
    && (s.runtime != Some(g) ==> t.runtime != Some(g))
  }

  lemma OneLess(callbacks: map<Cid, Callback>, cid: Cid)
    requires cid in callbacks
    ensures |callbacks - {cid}| == |callbacks| - 1
    ensures (set x | x in callbacks - {cid} && (callbacks - {cid})[x].Dialog?) ==
            (set x | x in callbacks && callbacks[x].Dialog?) - {cid}
  {
    assert callbacks.Keys == (callbacks - {cid}).Keys + {cid};
  }

  lemma RunSections(s: Shared, x: Section)
    requires x.Accept? || x.End? || x.Begin? || x.Judge? || x.Claim? || x.Idle?
    ensures Apply(s, x) == s.(fg := Runs(s, x))
  {
  }

  lemma CancelStrikes(s: Shared, cid: Cid)
    ensures Apply(s, CancelSlot(cid)) ==
            if !CancelTakesEffect(s) then s
            else s.(fg := s.fg[Slot(s).value := Of(s, Slot(s).value).(cancelled := true)],
                    callbacks := if Interrupts(s) then s.callbacks[cid := Interrupt(Slot(s).value)] else s.callbacks)
  {
  }

  lemma OpeningEnds(s: Shared, ok: bool)
    ensures Apply(s, FinishOpen(ok)) ==
            if ok then s.(opener := None, inc := s.inc + 1, active := true, streamGen := s.opener) else s.(opener := None)
  {
  }

  lemma CommitsRun(s: Shared, f: Fid, ok: bool)
    requires f in s.fg
    ensures Apply(s, Section.Commit(f, ok)) ==
            s.(fg := s.fg[f := CommitRun(s.fg[f], s.ephemeral || ok)], persisted := s.persisted || (ok && !s.ephemeral))
  {
  }

  lemma EvolvesItself(s: Shared)
    ensures Evolves(s, s)
  {
  }

  lemma MintEvolves(s: Shared, t: Shared, f: Fid, g: Gen)
    requires f !in s.fg && Evolves(Apply(s, Section.Mint(f, g)), t)
    ensures Evolves(s, t)
  {
    SectionEvolves(s, Section.Mint(f, g));
    EvolvesOn(s, Apply(s, Section.Mint(f, g)), t);
  }

  lemma EndingEvolves(s: Shared, t: Shared, u: Shared, g: Gen)
    requires t == Apply(s, StartEnding(g)) && Evolves(t, u)
    ensures Evolves(s, u)
  {
    SectionEvolves(s, StartEnding(g));
    EvolvesOn(s, t, u);
  }

  lemma BuriesNow(s: Shared, failed: map<Fid, Foreground>, t: Shared, failing: Option<Fid>, losing: Option<Fid>)
    requires failed == if failing.Some? && Live(s, failing.value)
                       then s.fg[failing.value := s.fg[failing.value].(published := s.fg[failing.value].published + [Terminal(Failed, Death)])]
                       else s.fg
    requires t.fg == if losing.Some? && losing.value in failed
                     then failed[losing.value := EndRun(failed[losing.value], TransportEnded)] else failed
    ensures Buries(s, t, failing, losing)
  {
  }

  lemma BuriesOn(s: Shared, t: Shared, u: Shared, failing: Option<Fid>, losing: Option<Fid>)
    requires Buries(s, t, failing, losing) && Evolves(t, u)
    ensures Buries(s, u, failing, losing)
  {
    if failing.Some? && Live(s, failing.value) { assert Ages(t.fg[failing.value], u.fg[failing.value]); }
    if losing.Some? && losing.value in s.fg { assert Ages(t.fg[losing.value], u.fg[losing.value]); }
  }

  lemma CloseBegins(s: Shared)
    requires s.turn.Some? ==> s.turn.value in s.fg
    ensures Passes(s, Apply(s, StartClose)) && CancelledTurn(s, Apply(s, StartClose))
  {
    SectionEvolves(s, StartClose);
  }

  lemma PassesOn(s: Shared, t: Shared, u: Shared)
    requires Passes(s, t) && Passes(t, u)
    ensures Passes(s, u)
    ensures CancelledTurn(s, t) ==> CancelledTurn(s, u)
  {
    EvolvesOn(s, t, u);
    if s.turn.Some? && s.turn.value in t.fg { assert Ages(t.fg[s.turn.value], u.fg[s.turn.value]); }
  }

  /** The end of the ladder: the cycle taken at `before`, ended at `at`. */
  ghost predicate Ladder(s: Shared, before: Shared, at: Shared, t: Shared, failed: bool) {
    && Evolves(s, before) && Evolves(before, at) && Evolves(s, t) && (s.persisted ==> before.persisted)
    && at.callbacks == map[] && at.cycle.None?
    && Cancels(s, t, before.cycle, at, failed)
  }

  /** The run ended in the name of the close, if its stream is live. */
  function EndedRuns(at: Shared, taken: Option<Fid>, failed: bool): map<Fid, Foreground> {
    if !failed && taken.Some? && Live(at, taken.value)
    then at.fg[taken.value := at.fg[taken.value].(published := at.fg[taken.value].published + [Terminal(Outcome.Cancelled, Closing)])]
    else at.fg
  }

  lemma LadderEnds(s: Shared, before: Shared, took: Shared, at: Shared, t: Shared, failed: bool)
    requires Passes(s, before) && took == before.(cycle := None) && Passes(took, at) && at.callbacks == map[] && at.cycle.None?
    requires t == at.(fg := EndedRuns(at, before.cycle, failed))
    ensures Ladder(s, before, at, t, failed)
  {
    EvolvesOn(s, before, at);
    EvolvesOn(s, at, t);
    forall f: Fid
      ensures Closings(Of(t, f).published) ==
              Closings(Of(s, f).published) + if !failed && before.cycle == Some(f) && Live(at, f) then 1 else 0
    {
      ClosingsSnoc(Of(at, f).published, Terminal(Outcome.Cancelled, Closing));
    }
  }

  lemma LadderOn(s: Shared, before: Shared, at: Shared, t: Shared, u: Shared, failed: bool)
    requires Ladder(s, before, at, t, failed) && Passes(t, u)
    ensures Ladder(s, before, at, u, failed)
  {
    EvolvesOn(s, t, u);
    if before.cycle.Some? && before.cycle.value in t.fg { assert Ages(t.fg[before.cycle.value], u.fg[before.cycle.value]); }
  }

  lemma LadderFrom(s: Shared, down: Shared, c: Shared, before: Shared, at: Shared, t: Shared, failed: bool)
    requires CancelledTurn(s, down) && Passes(down, c) && Passes(s, c) && Ladder(c, before, at, t, failed)
    ensures Ladder(s, before, at, t, failed) && CancelledTurn(s, t)
  {
    EvolvesOn(s, c, before);
    EvolvesOn(s, c, t);
    EvolvesOn(down, c, t);
    if s.turn.Some? { assert Ages(down.fg[s.turn.value], t.fg[s.turn.value]); }
  }
}
