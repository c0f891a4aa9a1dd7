/** What the cache promises over every run of one entry. */
module QuotaTheorems {
  import opened Options
  import opened QuotaEntry
  import opened QuotaMachine

  /******* Failure backoff *******/

  /** A lane whose log ends in k failures is probed again only 5, 15 or 60 minutes after the last of them, and
      never before the retry time the provider still owes, whatever else interleaves. */
  lemma ProbeRespectsBackoff(start: int, ls: seq<Label>, l: Label)
    requires start >= 0 && Legal(Init(start), ls)
    requires Admits(Run(Init(start), ls), l)
    ensures var st := Run(Init(start), ls);
            var k := FailuresInARow(st.e.log, st.flight.lane);
            k > 0 ==> && LastFailure(st.e.log, st.flight.lane).Some?
                      && l.now >= LastFailure(st.e.log, st.flight.lane).value.failedAt
                                  + (if k == 1 then 5 else if k == 2 then 15 else 60) * MINUTE
                      && l.now >= OwedRetry(st.e.log, st.flight.lane)
  {
    InitKeeps(start);
    RunKeeps(Init(start), ls);
    var st := Run(Init(start), ls);
    assert LaneKeepsBackoff(st.e, 0, st.clock) && LaneKeepsBackoff(st.e, 1, st.clock);
  }

  /******* Exhaustion blocks *******/

  predicate Reports(l: Label, id: WindowId) {
    l.Turn? && id in Seen(l.windows)
  }

  lemma BlockStays(st: State, l: Label, id: WindowId)
    requires Inv(st) && Enabled(st, l) && !Reports(l, id)
    requires id in st.e.blocked && Next(st, l).clock < st.e.blocked[id]
    requires l.Reply? ==> Stops(id, st.flight.lane)
    ensures id in Next(st, l).e.blocked && Next(st, l).e.blocked[id] == st.e.blocked[id]
  {
    match l {
      case Skip =>
      case Finish =>
      case Join(now) =>
      case Hit(now) => Later(st.e, st.clock, now); ExpireKeeps(st.e, now);
      case Begin(now) => Later(st.e, st.clock, now); ExpireKeeps(st.e, now);
      case Snap(now) => Later(st.e, st.clock, now); ExpireKeeps(st.e, now);
      case Turn(ws, refusal, now) =>
        Later(st.e, st.clock, now);
        ObserveBlocks(st.e, ws, refusal, now, id);
      case Reply(answer, err, ctxDone, now) =>
        Later(st.e, st.clock, now);
        ApplyProbeKeeps(st.e, st.flight.lane, answer, err, st.flight.versions, now);
    }
  }

  /** The Haiku lane ignores Fable windows, so its answers leave a Fable block alone too. */
  lemma {:induction false} HaikuLeavesFable(e: Entry, ws: seq<Window>, exhausted: Option<WindowId>,
                                            versions: map<WindowId, nat>, nextBefore: int, now: int)
    requires Fable in e.blocked
    ensures var e' := StoreWindows(e, 0, ws, exhausted, versions, nextBefore, now);
            Fable in e'.blocked && e'.blocked[Fable] == e.blocked[Fable]
  {
    if ws != [] {
      HaikuLeavesFable(e, ws[..|ws| - 1], exhausted, versions, nextBefore, now);
      StoreWindowTouches(StoreWindows(e, 0, ws[..|ws| - 1], exhausted, versions, nextBefore, now), 0, ws[|ws| - 1],
                         exhausted, versions, nextBefore, now);
    }
  }

  lemma {:induction false} BlockHoldsUntilReset(st: State, ls: seq<Label>, id: WindowId)
    requires Inv(st) && Legal(st, ls) && id in st.e.blocked
    requires forall i :: 0 <= i < |ls| ==> !Reports(ls[i], id)
    requires Run(st, ls).clock < st.e.blocked[id]
    ensures id in Run(st, ls).e.blocked && Run(st, ls).e.blocked[id] == st.e.blocked[id]
    decreases |ls|
  {
    if ls != [] {
      var l := ls[0];
      var st' := Next(st, l);
      StepKeeps(st, l);
      ClockAdvances(st', ls[1..]);
      assert !Reports(ls[0], id);
      if l.Reply? && !Stops(id, st.flight.lane) {
        HaikuLeavesFable(AcceptProbe(st.e, 0, l.answer, l.now), l.answer.windows, l.answer.exhausted,
                         st.flight.versions, st.e.lanes.At(0).next, l.now);
      } else {
        BlockStays(st, l, id);
      }
      assert forall i :: 0 <= i < |ls[1..]| ==> ls[1..][i] == ls[i + 1];
      BlockHoldsUntilReset(st', ls[1..], id);
    }
  }

  lemma {:induction false} ClockAdvances(st: State, ls: seq<Label>)
    requires Legal(st, ls)
    ensures Run(st, ls).clock >= st.clock
    decreases |ls|
  {
    if ls != [] {
      ClockAdvances(Next(st, ls[0]), ls[1..]);
    }
  }

  /** Once a window is recorded exhausted with a reset time, no probe that could report it is admitted before the
      reset, in any continuation in which no turn reports that window: not a later probe, and not the effect of
      one already out when the block was recorded. */
  lemma NoProbeBeforeReset(st: State, ls: seq<Label>, l: Label, id: WindowId)
    requires Inv(st) && Legal(st, ls) && id in st.e.blocked
    requires forall i :: 0 <= i < |ls| ==> !Reports(ls[i], id)
    requires l.Snap? && Enabled(Run(st, ls), l) && Stops(id, Run(st, ls).flight.lane)
    requires l.now < st.e.blocked[id]
    ensures !Admits(Run(st, ls), l)
  {
    var end := Run(st, ls);
    BlockHoldsUntilReset(st, ls, id);
    RunKeeps(st, ls);
    Later(end.e, end.clock, l.now);
    ExpireKeeps(end.e, l.now);
    assert id in Expire(end.e, l.now).blocked;
  }

  /** A refusal blocks every window it is about that its own observation reported with a future reset, and no other of
      those: the window it names, or all three where it names none. */
  lemma RefusalBlocks(e: Entry, ws: seq<Window>, refusal: Refusal, id: WindowId, now: int)
    requires id in Seen(ws) && id in RefusedIds(refusal)
    ensures var e' := Observe(e, ws, refusal, now);
            && id in e'.windows
            && if e'.windows[id].resetsAt > now
               then id in e'.blocked && e'.blocked[id] == e'.windows[id].resetsAt
               else id !in e'.blocked
  {
    var e0 := Touched(e, ws, now);
    var e1 := ObserveWindows(e0, ws);
    ObserveWindowsEffect(e0, ws, id);
    ReportedStays(e0, ws, id);
    RefuseAllBlocks(e1, RefusedIds(refusal), Seen(ws), now, id);
  }

  lemma {:induction false} ReportedStays(e: Entry, ws: seq<Window>, id: WindowId)
    requires id in Seen(ws) || id in e.windows
    ensures id in ObserveWindows(e, ws).windows
  {
    if ws != [] && ws[|ws| - 1].id != id {
      assert ws == ws[..|ws| - 1] + [ws[|ws| - 1]];
      ReportedStays(e, ws[..|ws| - 1], id);
    }
  }

  /** Refusals, in any number, of a window seen in the turn: only its block changes, once it is among them. */
  lemma {:induction false} RefuseAllBlocks(e: Entry, ids: seq<WindowId>, seen: set<WindowId>, now: int, id: WindowId)
    requires id in seen && id in e.windows && id !in e.blocked
    ensures var e' := RefuseAll(e, ids, seen, now);
            && id in e'.windows && e'.windows[id].resetsAt == e.windows[id].resetsAt
            && if id in ids && e.windows[id].resetsAt > now
               then id in e'.blocked && e'.blocked[id] == e.windows[id].resetsAt
               else id !in e'.blocked
  {
    if ids != [] {
      RefuseAllBlocks(e, ids[..|ids| - 1], seen, now, id);
      assert ids == ids[..|ids| - 1] + [ids[|ids| - 1]];
      var before, last := RefuseAll(e, ids[..|ids| - 1], seen, now), ids[|ids| - 1];
      if last in seen { RefuseSeenBlocks(before, last, seen, now); } else { RefuseUnseenBlocks(before, last, seen, now, id); }
    }
  }

  lemma RefuseSeenBlocks(e: Entry, refused: WindowId, seen: set<WindowId>, now: int)
    requires refused in seen
    ensures var e' := Refuse(e, refused, seen, now);
            e'.windows == e.windows &&
            e'.blocked == if refused in e.windows && e.windows[refused].resetsAt > now
                          then e.blocked[refused := e.windows[refused].resetsAt] else e.blocked
  {
  }

  lemma RefuseUnseenBlocks(e: Entry, refused: WindowId, seen: set<WindowId>, now: int, id: WindowId)
    requires refused !in seen && refused != id && id in e.windows
    ensures var e' := Refuse(e, refused, seen, now);
            e'.blocked == e.blocked && id in e'.windows && e'.windows[id] == e.windows[id]
  {
    var marked := MarkDirty(e, refused, now);
    DirtyElsewhere(e, refused, now, id);
    assert WakeLane(marked, refused, now).windows == marked.windows && WakeLane(marked, refused, now).blocked == marked.blocked;
  }

  lemma DirtyElsewhere(e: Entry, refused: WindowId, now: int, id: WindowId)
    requires refused != id && id in e.windows
    ensures var e' := MarkDirty(e, refused, now); e'.blocked == e.blocked && id in e'.windows && e'.windows[id] == e.windows[id]
  {
  }

  /******* Linearisation at the snapshot *******/

  /** The last window with this id in a list, if any. */
  function LastOf(ws: seq<Window>, id: WindowId): Option<Window> {
    if ws == [] then None
    else if ws[|ws| - 1].id == id then Some(ws[|ws| - 1])
    else LastOf(ws[..|ws| - 1], id)
  }

  function Lookup(windows: map<WindowId, Window>, id: WindowId): Option<Window> {
    if id in windows then Some(windows[id]) else None
  }

  lemma StoreWindowStores(e: Entry, lane: nat, w: Window, exhausted: Option<WindowId>,
                          versions: map<WindowId, nat>, nextBefore: int, now: int, id: WindowId)
    requires lane < 2
    ensures StoreWindow(e, lane, w, exhausted, versions, nextBefore, now).versions == e.versions
    ensures Lookup(StoreWindow(e, lane, w, exhausted, versions, nextBefore, now).windows, id) ==
            if w.id == id && !IsStale(e, id, versions) && !(lane == 0 && id == Fable)
            then Some(w) else Lookup(e.windows, id)
  {
    assert PutWindow(e, w, exhausted, now).windows == e.windows[w.id := w];
    assert SetNext(PutWindow(e, w, exhausted, now), lane, w.refreshAt).windows == e.windows[w.id := w];
    assert SetNext(e, lane, nextBefore).windows == e.windows;
  }

  lemma {:induction false} StoreWindowsStores(e: Entry, lane: nat, ws: seq<Window>, exhausted: Option<WindowId>,
                                              versions: map<WindowId, nat>, nextBefore: int, now: int, id: WindowId)
    requires lane < 2
    ensures StoreWindows(e, lane, ws, exhausted, versions, nextBefore, now).versions == e.versions
    ensures Lookup(StoreWindows(e, lane, ws, exhausted, versions, nextBefore, now).windows, id) ==
            if LastOf(ws, id).Some? && !IsStale(e, id, versions) && !(lane == 0 && id == Fable)
            then LastOf(ws, id) else Lookup(e.windows, id)
  {
    if ws != [] {
      var before, w := ws[..|ws| - 1], ws[|ws| - 1];
      StoreWindowsStores(e, lane, before, exhausted, versions, nextBefore, now, id);
      StoreWindowStores(StoreWindows(e, lane, before, exhausted, versions, nextBefore, now), lane, w, exhausted, versions,
                        nextBefore, now, id);
    }
  }

  /** A probe's answer replaces a window exactly when no report and no first refusal moved that window since the
      probe's snapshot; every other window keeps its reading, except that a not-authenticated answer empties them. */
  lemma AnswerStoresUnmoved(st: State, answer: Answer, err: Option<string>, ctxDone: bool, now: int, id: WindowId)
    requires Inv(st) && Enabled(st, Reply(answer, err, ctxDone, now))
    ensures var answered := LastOf(answer.windows, id);
            Lookup(Next(st, Reply(answer, err, ctxDone, now)).e.windows, id) ==
            if err.Some? then Lookup(st.e.windows, id)
            else if answered.Some? && MovedSinceSnap(st.e.log, id) == 0 && !(st.flight.lane == 0 && id == Fable) then answered
            else if answer.notAuthenticated then None
            else Lookup(st.e.windows, id)
  {
    var lane := st.flight.lane;
    var accepted := AcceptProbe(st.e, lane, answer, now);
    AcceptProbeTracks(st.e, lane, answer, now);
    assert id in st.flight.versions;
    StoreWindowsStores(accepted, lane, answer.windows, answer.exhausted, st.flight.versions, st.e.lanes.At(lane).next, now, id);
    assert IsStale(accepted, id, st.flight.versions) <==> MovedSinceSnap(st.e.log, id) > 0;
  }

  /** In every reachable state the windows are those a replay of the log leaves, and every stored answer in it
      linearises at its snapshot: whatever moved its window lies before a snapshot that precedes the store. */
  lemma WindowsLinearise(start: int, ls: seq<Label>)
    requires start >= 0 && Legal(Init(start), ls)
    ensures var e := Run(Init(start), ls).e;
            && (forall id :: id in e.windows <==> Reading(e.log, id).Some?)
            && (forall id :: id in e.windows ==> SameReading(e.windows[id], Reading(e.log, id).value))
            && forall k, j :: 0 <= j < k < |e.log| && e.log[k].Stored? && Bumps(e.log[j], e.log[k].stored.id) ==>
                              exists a :: j < a < k && e.log[a].Snapped?
  {
    InitKeeps(start);
    RunKeeps(Init(start), ls);
    var log := Run(Init(start), ls).e.log;
    forall k, j | 0 <= j < k < |log| && log[k].Stored? && Bumps(log[j], log[k].stored.id)
      ensures exists a :: j < a < k && log[a].Snapped?
    {
      StoreUnmovedAt(log, k);
      SnapBetween(log[..k], j, log[k].stored.id);
    }
  }

  lemma {:induction false} StoreUnmovedAt(log: seq<Event>, k: nat)
    requires StoresUnmoved(log) && k < |log| && log[k].Stored?
    ensures MovedSinceSnap(log[..k], log[k].stored.id) == 0
  {
    if k < |log| - 1 {
      StoreUnmovedAt(log[..|log| - 1], k);
      assert log[..|log| - 1][..k] == log[..k];
    }
  }

  lemma {:induction false} SnapBetween(log: seq<Event>, j: nat, id: WindowId)
    requires j < |log| && Bumps(log[j], id) && MovedSinceSnap(log, id) == 0
    ensures exists a :: j < a < |log| && log[a].Snapped?
  {
    var last := log[|log| - 1];
    if last.Snapped? {
      assert j < |log| - 1;
    } else {
      SnapBetween(log[..|log| - 1], j, id);
    }
  }

  /******* Refused windows *******/

  /** A refused window wakes its lane at most once per time to live, in every run. */
  lemma WakesAreSpaced(start: int, ls: seq<Label>, i: nat, j: nat)
    requires start >= 0 && Legal(Init(start), ls)
    requires var log := Run(Init(start), ls).e.log;
             i < j < |log| && log[i].Woke? && log[j].Woke? && log[i].woken == log[j].woken
    ensures var log := Run(Init(start), ls).e.log;
            log[j].wokenAt >= log[i].wokenAt + (if log[i].woken == Fable then 30 else 5) * MINUTE
  {
    InitKeeps(start);
    RunKeeps(Init(start), ls);
    WakesSpacedAt(Run(Init(start), ls).e.log, i, j);
  }

  lemma {:induction false} WakesSpacedAt(log: seq<Event>, i: nat, j: nat)
    requires WakesSpaced(log)
    requires i < j < |log| && log[i].Woke? && log[j].Woke? && log[i].woken == log[j].woken
    ensures log[j].wokenAt >= log[i].wokenAt + Ttl(log[i].woken)
  {
    if j < |log| - 1 {
      WakesSpacedAt(log[..|log| - 1], i, j);
    } else {
      LastWakeAfter(log[..j], i);
    }
  }

  lemma {:induction false} LastWakeAfter(log: seq<Event>, i: nat)
    requires WakesSpaced(log) && i < |log| && log[i].Woke?
    ensures LastWake(log, log[i].woken).Some?
    ensures LastWake(log, log[i].woken).value >= log[i].wokenAt
  {
    if i < |log| - 1 {
      LastWakeAfter(log[..|log| - 1], i);
    }
  }
}
