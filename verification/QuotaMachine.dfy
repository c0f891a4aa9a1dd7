/**
 One cache entry under every interleaving of its reader and of turn observations. A label is one critical
 section of QuotaCache.Read or QuotaCache.Observe; the lock is free while a probe is on the wire, so
 observations land between a probe's snapshot and its answer.
 */
module QuotaMachine {
  import opened Options
  import opened QuotaEntry

  /** Where the refreshing reader stands: about to consider a lane (2 = leaving), or with that lane's probe out. */
  datatype Flight =
    | Absent
    | AtLane(lane: nat, due: seq<bool>)
    | Probing(lane: nat, due: seq<bool>, versions: map<WindowId, nat>)

  datatype State = State(e: Entry, flight: Flight, clock: int)

  datatype Label =
    | Join(now: int)                     // a reader that finds a refresh running and waits for it
    | Hit(now: int)                      // a reader with no lane due
    | Begin(now: int)                    // a reader that starts the refresh
    | Skip                               // a lane that was not due when the refresh began
    | Snap(now: int)                     // version snapshot and second due check
    | Reply(answer: Answer, err: Option<string>, ctxDone: bool, now: int)
    | Finish
    | Turn(windows: seq<Window>, refusal: Refusal, now: int)

  predicate Timed(st: State, l: Label) {
    match l
    case Skip => true
    case Finish => true
    case Join(now) => now >= st.clock
    case Hit(now) => now >= st.clock
    case Begin(now) => now >= st.clock
    case Snap(now) => now >= st.clock
    case Reply(_, _, _, now) => now >= st.clock
    case Turn(_, _, now) => now >= st.clock
  }

  predicate Enabled(st: State, l: Label) {
    && Timed(st, l)
    && match l
       case Join(_) => st.e.running
       case Hit(now) => !st.e.running && !Due(Expire(st.e, now), 0, now) && !Due(Expire(st.e, now), 1, now)
       case Begin(now) => !st.e.running && (Due(Expire(st.e, now), 0, now) || Due(Expire(st.e, now), 1, now))
       case Skip => st.flight.AtLane? && st.flight.lane < |st.flight.due| == 2 && !st.flight.due[st.flight.lane]
       case Snap(_) => st.flight.AtLane? && st.flight.lane < |st.flight.due| == 2 && st.flight.due[st.flight.lane]
       case Reply(_, _, _, _) => st.flight.Probing? && st.flight.lane < 2
       case Finish => st.flight.AtLane? && st.flight.lane == 2
       case Turn(_, _, _) => true
  }

  /** The snapshot step passes its due check, so its probe goes out. */
  predicate Admits(st: State, l: Label) {
    l.Snap? && Enabled(st, l) && Due(Expire(st.e, l.now), st.flight.lane, l.now)
  }

  function Snapshot(e: Entry): map<WindowId, nat> {
    map[Session := Version(e, Session), Weekly := Version(e, Weekly), Fable := Version(e, Fable)]
  }

  function Next(st: State, l: Label): State
    requires Enabled(st, l)
  {
    match l
    case Join(now) => State(st.e.(lastUsed := now), st.flight, now)
    case Hit(now) => State(Expire(st.e, now).(lastUsed := now), st.flight, now)
    case Begin(now) =>
      var e := Expire(st.e, now).(lastUsed := now, running := true);
      State(e, AtLane(0, [Due(e, 0, now), Due(e, 1, now)]), now)
    case Skip => st.(flight := AtLane(st.flight.lane + 1, st.flight.due))
    case Snap(now) =>
      var lane := st.flight.lane;
      var e := Expire(st.e, now);
      if Due(e, lane, now)
      then State(Note(e, Snapped(lane)), Probing(lane, st.flight.due, Snapshot(e)), now)
      else State(e, AtLane(lane + 1, st.flight.due), now)
    case Reply(answer, err, ctxDone, now) =>
      var lane := st.flight.lane;
      State(ApplyProbe(st.e, lane, answer, err, st.flight.versions, now),
            AtLane(if ctxDone || answer.notAuthenticated then 2 else lane + 1, st.flight.due), now)
    case Finish => State(st.e.(running := false), Absent, st.clock)
    case Turn(windows, refusal, now) => State(Observe(st.e, windows, refusal, now), st.flight, now)
  }

  ghost predicate Legal(st: State, ls: seq<Label>)
    decreases |ls|
  {
    ls == [] || (Enabled(st, ls[0]) && Legal(Next(st, ls[0]), ls[1..]))
  }

  ghost function Run(st: State, ls: seq<Label>): State
    requires Legal(st, ls)
    decreases |ls|
  {
    if ls == [] then st else Run(Next(st, ls[0]), ls[1..])
  }

  function Init(now: int): State {
    State(Fresh(now), Absent, now)
  }

  /******* The invariant *******/

  predicate SameReading(w: Window, v: Window) {
    w.id == v.id && w.percent == v.percent && w.observedAt == v.observedAt && w.resetsAt == v.resetsAt
  }

  /** The stored windows are exactly what a replay of the log leaves, up to the refresh time a refusal moves. */
  ghost predicate WindowsReplayLog(e: Entry) {
    && (forall id :: id in e.windows <==> Reading(e.log, id).Some?)
    && (forall id :: id in e.windows ==> SameReading(e.windows[id], Reading(e.log, id).value) && e.windows[id].id == id)
  }

  /** Each lane's deadline keeps the backoff of its failure run and the retry time it owes. */
  ghost predicate LaneKeepsBackoff(e: Entry, lane: nat, clock: int)
    requires lane < 2
  {
    var failures := e.lanes.At(lane).failures;
    && failures == FailuresInARow(e.log, lane)
    && (failures > 0 ==>
          var last := LastFailure(e.log, lane);
          && last.Some?
          && last.value.failedAt <= clock
          && e.lanes.At(lane).next >= last.value.failedAt + Backoff(failures)
          && e.lanes.At(lane).next >= OwedRetry(e.log, lane))
  }

  ghost predicate WakesRemembered(e: Entry) {
    && WakesSpaced(e.log)
    && forall id :: LastWake(e.log, id).Some? ==>
                    id in e.invalidatedUntil && e.invalidatedUntil[id] == LastWake(e.log, id).value + Ttl(id)
  }

  ghost predicate EntryInv(e: Entry, clock: int) {
    && clock >= 0
    && WindowsReplayLog(e)
    && StoresUnmoved(e.log)
    && LaneKeepsBackoff(e, 0, clock) && LaneKeepsBackoff(e, 1, clock)
    && WakesRemembered(e)
    && (forall id :: id in e.blocked ==> e.blocked[id] > ZERO_TIME)
  }

  /** A snapshot is behind by exactly the moves since it was taken. */
  ghost predicate SnapshotTracks(e: Entry, versions: map<WindowId, nat>) {
    forall id :: id in versions && Version(e, id) == versions[id] + MovedSinceSnap(e.log, id)
  }

  /** Every block a probe of this lane could lift was recorded after the probe's snapshot. */
  ghost predicate BlocksOutlive(e: Entry, lane: nat, versions: map<WindowId, nat>) {
    forall id :: id in e.blocked && Stops(id, lane) ==> IsStale(e, id, versions)
  }

  ghost predicate FlightInv(st: State) {
    && (st.e.running <==> !st.flight.Absent?)
    && (st.flight.AtLane? ==> st.flight.lane <= 2 && |st.flight.due| == 2)
    && (st.flight.Probing? ==>
          && st.flight.lane < 2 && |st.flight.due| == 2
          && SnapshotTracks(st.e, st.flight.versions)
          && BlocksOutlive(st.e, st.flight.lane, st.flight.versions))
  }

  ghost predicate Inv(st: State) {
    EntryInv(st.e, st.clock) && FlightInv(st)
  }

  lemma InitKeeps(now: int)
    requires now >= 0
    ensures Inv(Init(now))
  {
  }

  /******* What each piece of code keeps *******/

  lemma LogMoves(log: seq<Event>, event: Event)
    ensures forall id :: MovedSinceSnap(log + [event], id) ==
                         if event.Snapped? then 0 else MovedSinceSnap(log, id) + if Bumps(event, id) then 1 else 0
  {
    assert (log + [event])[..|log + [event]| - 1] == log;
  }

  lemma LogWindows(log: seq<Event>, event: Event)
    ensures forall id :: Reading(log + [event], id) ==
                         if event.Cleared? then None
                         else if event.Reported? && event.reported.id == id then Some(event.reported)
                         else if event.Stored? && event.stored.id == id then Some(event.stored)
                         else Reading(log, id)
    ensures StoresUnmoved(log + [event]) ==
            (StoresUnmoved(log) && (event.Stored? ==> MovedSinceSnap(log, event.stored.id) == 0))
  {
    assert (log + [event])[..|log + [event]| - 1] == log;
  }

  lemma LogLanes(log: seq<Event>, event: Event)
    ensures forall lane :: FailuresInARow(log + [event], lane) ==
                           if event.Failed? && event.failLane == lane then 1 + FailuresInARow(log, lane)
                           else if event.Succeeded? && event.okLane == lane then 0
                           else FailuresInARow(log, lane)
    ensures forall lane :: LastFailure(log + [event], lane) ==
                           if event.Failed? && event.failLane == lane then Some(event) else LastFailure(log, lane)
    ensures forall lane :: OwedRetry(log + [event], lane) ==
                           if event.Failed? && event.failLane == lane then event.retryAfter
                           else if event.Cleared? then ZERO_TIME
                           else OwedRetry(log, lane)
  {
    assert (log + [event])[..|log + [event]| - 1] == log;
  }

  lemma LogWakes(log: seq<Event>, event: Event)
    ensures forall id :: LastWake(log + [event], id) ==
                         if event.Woke? && event.woken == id then Some(event.wokenAt) else LastWake(log, id)
    ensures WakesSpaced(log + [event]) ==
            (WakesSpaced(log) &&
             (event.Woke? && LastWake(log, event.woken).Some? ==>
                event.wokenAt >= LastWake(log, event.woken).value + Ttl(event.woken)))
  {
    assert (log + [event])[..|log + [event]| - 1] == log;
  }

  lemma LogStep(log: seq<Event>, event: Event)
    ensures forall id :: Reading(log + [event], id) ==
                         if event.Cleared? then None
                         else if event.Reported? && event.reported.id == id then Some(event.reported)
                         else if event.Stored? && event.stored.id == id then Some(event.stored)
                         else Reading(log, id)
    ensures StoresUnmoved(log + [event]) ==
            (StoresUnmoved(log) && (event.Stored? ==> MovedSinceSnap(log, event.stored.id) == 0))
    ensures forall lane :: FailuresInARow(log + [event], lane) ==
                           if event.Failed? && event.failLane == lane then 1 + FailuresInARow(log, lane)
                           else if event.Succeeded? && event.okLane == lane then 0
                           else FailuresInARow(log, lane)
    ensures forall lane :: LastFailure(log + [event], lane) ==
                           if event.Failed? && event.failLane == lane then Some(event) else LastFailure(log, lane)
    ensures forall lane :: OwedRetry(log + [event], lane) ==
                           if event.Failed? && event.failLane == lane then event.retryAfter
                           else if event.Cleared? then ZERO_TIME
                           else OwedRetry(log, lane)
    ensures forall id :: LastWake(log + [event], id) ==
                         if event.Woke? && event.woken == id then Some(event.wokenAt) else LastWake(log, id)
    ensures WakesSpaced(log + [event]) ==
            (WakesSpaced(log) &&
             (event.Woke? && LastWake(log, event.woken).Some? ==>
                event.wokenAt >= LastWake(log, event.woken).value + Ttl(event.woken)))
  {
    LogWindows(log, event);
    LogLanes(log, event);
    LogWakes(log, event);
  }

  /** Adjusting the deadline of a lane that is not failing disturbs nothing. */
  lemma SetNextKeeps(e: Entry, lane: nat, next: int, clock: int)
    requires EntryInv(e, clock) && lane < 2 && e.lanes.At(lane).failures == 0
    ensures EntryInv(SetNext(e, lane, next), clock)
  {
    assert LaneKeepsBackoff(SetNext(e, lane, next), 1 - lane, clock);
  }

  lemma ObserveWindowKeeps(e: Entry, w: Window, clock: int)
    requires EntryInv(e, clock)
    ensures EntryInv(ObserveWindow(e, w), clock)
  {
    var e' := ReportWindow(e, w);
    LogStep(e.log, Reported(w));
    assert WindowsReplayLog(e');
    assert LaneKeepsBackoff(e', 0, clock);
    assert LaneKeepsBackoff(e', 1, clock);
    if e.lanes.At(LaneOf(w.id)).failures == 0 {
      SetNextKeeps(e', LaneOf(w.id), w.refreshAt, clock);
    }
  }

  lemma MarkDirtyKeeps(e: Entry, id: WindowId, now: int)
    requires EntryInv(e, now)
    ensures EntryInv(MarkDirty(e, id, now), now)
  {
    var e' := MarkDirty(e, id, now);
    LogStep(e.log, Invalidated(id));
    assert WindowsReplayLog(e');
    assert LaneKeepsBackoff(e', 0, now);
    assert LaneKeepsBackoff(e', 1, now);
  }

  lemma WakeLaneKeeps(e: Entry, id: WindowId, now: int)
    requires EntryInv(e, now)
    ensures EntryInv(WakeLane(e, id, now), now)
  {
    var e' := WakeLane(e, id, now);
    if e' != e {
      SetNextKeeps(e, LaneOf(id), ZERO_TIME, now);
      var e0 := SetNext(e, LaneOf(id), ZERO_TIME);
      LogStep(e0.log, Woke(id, now));
      assert WindowsReplayLog(e');
      assert LaneKeepsBackoff(e', 0, now);
      assert LaneKeepsBackoff(e', 1, now);
    }
  }

  lemma ExpireKeeps(e: Entry, now: int)
    requires EntryInv(e, now)
    ensures EntryInv(Expire(e, now), now)
    ensures forall id :: id in Expire(e, now).blocked <==> id in e.blocked && e.blocked[id] > now
    ensures forall id :: id in Expire(e, now).blocked ==> Expire(e, now).blocked[id] == e.blocked[id]
  {
  }

  lemma FailProbeKeeps(e: Entry, lane: nat, retryAfter: int, err: string, now: int)
    requires EntryInv(e, now) && lane < 2
    ensures EntryInv(FailProbe(e, lane, retryAfter, err, now), now)
  {
    LogStep(e.log, Failed(lane, now, retryAfter));
    assert LaneKeepsBackoff(FailProbe(e, lane, retryAfter, err, now), 1 - lane, now);
    assert LaneKeepsBackoff(FailProbe(e, lane, retryAfter, err, now), lane, now);
  }

  lemma SignOutKeeps(e: Entry, lane: nat, next: int, now: int)
    requires EntryInv(e, now) && lane < 2 && e.lanes.At(lane).failures == 0 && next >= now + NEGATIVE_TTL
    ensures EntryInv(SignOut(e, lane, next), now)
  {
    LogStep(e.log, Cleared(lane));
    assert LaneKeepsBackoff(SignOut(e, lane, next), 1 - lane, now);
    assert LaneKeepsBackoff(SignOut(e, lane, next), lane, now);
  }

  lemma SucceedKeeps(e: Entry, lane: nat, next: int, signedOut: bool, now: int)
    requires EntryInv(e, now) && lane < 2
    ensures EntryInv(Succeed(e, lane, next, signedOut), now)
  {
    var e' := Succeed(e, lane, next, signedOut);
    LogStep(e.log, Succeeded(lane));
    assert WindowsReplayLog(e');
    assert LaneKeepsBackoff(e', 1 - lane, now);
    assert LaneKeepsBackoff(e', lane, now);
  }

  lemma AcceptProbeKeeps(e: Entry, lane: nat, answer: Answer, now: int)
    requires EntryInv(e, now) && lane < 2
    ensures EntryInv(AcceptProbe(e, lane, answer, now), now)
    ensures AcceptProbe(e, lane, answer, now).lanes.At(lane).failures == 0
  {
    var next := Max(now + LaneTtl(lane, answer), answer.retryAfter);
    var e' := Succeed(e, lane, next, answer.notAuthenticated);
    SucceedKeeps(e, lane, next, answer.notAuthenticated, now);
    assert e'.lanes.At(lane).failures == 0;
    if answer.notAuthenticated {
      SignOutKeeps(e', lane, next, now);
      assert AcceptProbe(e, lane, answer, now) == SignOut(e', lane, next);
    } else {
      assert AcceptProbe(e, lane, answer, now) == e';
    }
  }

  /** Accepting an answer moves no window's version and lifts no block. */
  lemma AcceptProbeTracks(e: Entry, lane: nat, answer: Answer, now: int)
    requires lane < 2
    ensures AcceptProbe(e, lane, answer, now).versions == e.versions
    ensures AcceptProbe(e, lane, answer, now).blocked == e.blocked
    ensures forall id :: MovedSinceSnap(AcceptProbe(e, lane, answer, now).log, id) == MovedSinceSnap(e.log, id)
  {
    LogMoves(e.log, Succeeded(lane));
    LogMoves(e.log + [Succeeded(lane)], Cleared(lane));
  }

  /******* A probe's answer *******/

  lemma PutWindowKeeps(e: Entry, w: Window, exhausted: Option<WindowId>, now: int)
    requires EntryInv(e, now) && MovedSinceSnap(e.log, w.id) == 0
    ensures EntryInv(PutWindow(e, w, exhausted, now), now)
  {
    LogStep(e.log, Stored(w));
    assert LaneKeepsBackoff(PutWindow(e, w, exhausted, now), 0, now);
    assert LaneKeepsBackoff(PutWindow(e, w, exhausted, now), 1, now);
  }

  /** A fresh window is stored, a moved one is not; a block survives every answer whose snapshot precedes it. */
  lemma StoreWindowKeeps(e: Entry, lane: nat, w: Window, exhausted: Option<WindowId>,
                         versions: map<WindowId, nat>, nextBefore: int, now: int)
    requires EntryInv(e, now) && lane < 2 && e.lanes.At(lane).failures == 0
    requires SnapshotTracks(e, versions)
    ensures EntryInv(StoreWindow(e, lane, w, exhausted, versions, nextBefore, now), now)
    ensures StoreWindow(e, lane, w, exhausted, versions, nextBefore, now).lanes.At(lane).failures == 0
  {
    var e' := StoreWindow(e, lane, w, exhausted, versions, nextBefore, now);
    var put := PutWindow(e, w, exhausted, now);
    if e' != e {
      if IsStale(e, w.id, versions) {
        SetNextKeeps(e, lane, nextBefore, now);
      } else {
        PutWindowKeeps(e, w, exhausted, now);
        SetNextKeeps(put, lane, w.refreshAt, now);
        assert e' == put || e' == SetNext(put, lane, w.refreshAt);
      }
    }
  }

  lemma PutWindowTracks(e: Entry, w: Window, exhausted: Option<WindowId>, versions: map<WindowId, nat>, now: int)
    requires SnapshotTracks(e, versions)
    ensures SnapshotTracks(PutWindow(e, w, exhausted, now), versions)
  {
    LogMoves(e.log, Stored(w));
  }

  lemma SetNextTracks(e: Entry, lane: nat, next: int, versions: map<WindowId, nat>)
    requires SnapshotTracks(e, versions) && lane < 2
    ensures SnapshotTracks(SetNext(e, lane, next), versions)
  {
    forall id ensures Version(SetNext(e, lane, next), id) == versions[id] + MovedSinceSnap(e.log, id) {
      assert id in versions;
    }
  }

  lemma StoreWindowTracks(e: Entry, lane: nat, w: Window, exhausted: Option<WindowId>,
                          versions: map<WindowId, nat>, nextBefore: int, now: int)
    requires lane < 2 && SnapshotTracks(e, versions)
    ensures SnapshotTracks(StoreWindow(e, lane, w, exhausted, versions, nextBefore, now), versions)
    ensures StoreWindow(e, lane, w, exhausted, versions, nextBefore, now).versions == e.versions
  {
    PutWindowTracks(e, w, exhausted, versions, now);
    SetNextTracks(e, lane, nextBefore, versions);
    SetNextTracks(PutWindow(e, w, exhausted, now), lane, w.refreshAt, versions);
  }

  lemma StoreWindowBlocks(e: Entry, lane: nat, w: Window, exhausted: Option<WindowId>,
                          versions: map<WindowId, nat>, nextBefore: int, now: int, id: WindowId)
    requires lane < 2 && id in e.blocked && Stops(id, lane) && IsStale(e, id, versions)
    ensures id in StoreWindow(e, lane, w, exhausted, versions, nextBefore, now).blocked
    ensures StoreWindow(e, lane, w, exhausted, versions, nextBefore, now).blocked[id] == e.blocked[id]
  {
    StoreWindowTouches(e, lane, w, exhausted, versions, nextBefore, now);
  }

  /** Storing one window leaves the run flag alone, and the blocks of every window it does not store. */
  lemma StoreWindowTouches(e: Entry, lane: nat, w: Window, exhausted: Option<WindowId>,
                           versions: map<WindowId, nat>, nextBefore: int, now: int)
    requires lane < 2
    ensures StoreWindow(e, lane, w, exhausted, versions, nextBefore, now).running == e.running
    ensures StoreWindow(e, lane, w, exhausted, versions, nextBefore, now).blocked ==
            if (lane == 0 && w.id == Fable) || IsStale(e, w.id, versions) then e.blocked
            else PutWindow(e, w, exhausted, now).blocked
  {
    var put := PutWindow(e, w, exhausted, now);
    assert SetNext(e, lane, nextBefore).blocked == e.blocked;
    assert SetNext(put, lane, w.refreshAt).blocked == put.blocked;
    assert SetNext(put, lane, w.refreshAt).running == e.running;
  }

  lemma {:induction false} StoreWindowsKeeps(e: Entry, lane: nat, ws: seq<Window>, exhausted: Option<WindowId>,
                                             versions: map<WindowId, nat>, nextBefore: int, now: int)
    requires EntryInv(e, now) && lane < 2 && e.lanes.At(lane).failures == 0
    requires SnapshotTracks(e, versions) && BlocksOutlive(e, lane, versions)
    ensures EntryInv(StoreWindows(e, lane, ws, exhausted, versions, nextBefore, now), now)
    ensures StoreWindows(e, lane, ws, exhausted, versions, nextBefore, now).lanes.At(lane).failures == 0
    ensures SnapshotTracks(StoreWindows(e, lane, ws, exhausted, versions, nextBefore, now), versions)
    ensures StoreWindows(e, lane, ws, exhausted, versions, nextBefore, now).versions == e.versions
    ensures var e' := StoreWindows(e, lane, ws, exhausted, versions, nextBefore, now);
            forall id :: id in e.blocked && Stops(id, lane) ==> id in e'.blocked && e'.blocked[id] == e.blocked[id]
  {
    if ws != [] {
      StoreWindowsKeeps(e, lane, ws[..|ws| - 1], exhausted, versions, nextBefore, now);
      var e' := StoreWindows(e, lane, ws[..|ws| - 1], exhausted, versions, nextBefore, now);
      StoreWindowKeeps(e', lane, ws[|ws| - 1], exhausted, versions, nextBefore, now);
      StoreWindowTracks(e', lane, ws[|ws| - 1], exhausted, versions, nextBefore, now);
      forall id | id in e.blocked && Stops(id, lane)
        ensures id in e'.blocked && IsStale(e', id, versions)
      {
      }
      forall id | id in e.blocked && Stops(id, lane) {
        StoreWindowBlocks(e', lane, ws[|ws| - 1], exhausted, versions, nextBefore, now, id);
      }
    }
  }

  lemma ApplyProbeKeeps(e: Entry, lane: nat, answer: Answer, err: Option<string>, versions: map<WindowId, nat>, now: int)
    requires EntryInv(e, now) && lane < 2
    requires SnapshotTracks(e, versions) && BlocksOutlive(e, lane, versions)
    ensures EntryInv(ApplyProbe(e, lane, answer, err, versions, now), now)
    ensures var e' := ApplyProbe(e, lane, answer, err, versions, now);
            forall id :: id in e.blocked && Stops(id, lane) ==> id in e'.blocked && e'.blocked[id] == e.blocked[id]
  {
    if err.Some? {
      FailProbeKeeps(e, lane, answer.retryAfter, err.value, now);
    } else {
      var accepted := AcceptProbe(e, lane, answer, now);
      AcceptProbeKeeps(e, lane, answer, now);
      AcceptProbeTracks(e, lane, answer, now);
      StoreWindowsKeeps(accepted, lane, answer.windows, answer.exhausted, versions, e.lanes.At(lane).next, now);
      var stored := StoreWindows(accepted, lane, answer.windows, answer.exhausted, versions, e.lanes.At(lane).next, now);
      SetNextKeeps(stored, lane, Max(stored.lanes.At(lane).next, answer.retryAfter), now);
    }
  }

  /******* An observation *******/

  /** The version counter and the log move together, and only forward. */
  ghost predicate MovesTogether(e: Entry, e': Entry) {
    forall id :: && Version(e', id) - MovedSinceSnap(e'.log, id) == Version(e, id) - MovedSinceSnap(e.log, id)
                 && Version(e', id) >= Version(e, id)
  }

  lemma MovesTransitive(e0: Entry, e1: Entry, e2: Entry)
    requires MovesTogether(e0, e1) && MovesTogether(e1, e2)
    ensures MovesTogether(e0, e2)
  {
  }

  lemma ReportWindowMoves(e: Entry, w: Window)
    ensures MovesTogether(e, ReportWindow(e, w))
  {
    LogMoves(e.log, Reported(w));
  }

  /** A reported window moves and loses its block; every other block stays as it was. */
  lemma ObserveWindowEffect(e: Entry, w: Window)
    ensures ObserveWindow(e, w).windows == e.windows[w.id := w]
    ensures ObserveWindow(e, w).blocked == e.blocked - {w.id}
    ensures ObserveWindow(e, w).versions == e.versions[w.id := Version(e, w.id) + 1]
    ensures ObserveWindow(e, w).log == e.log + [Reported(w)]
  {
  }

  lemma ObserveWindowMoves(e: Entry, w: Window)
    ensures MovesTogether(e, ObserveWindow(e, w))
  {
    ReportWindowMoves(e, w);
    ObserveWindowEffect(e, w);
  }

  lemma {:induction false} ObserveWindowsKeeps(e: Entry, ws: seq<Window>, clock: int)
    requires EntryInv(e, clock)
    ensures EntryInv(ObserveWindows(e, ws), clock)
  {
    if ws != [] {
      ObserveWindowsKeeps(e, ws[..|ws| - 1], clock);
      ObserveWindowKeeps(ObserveWindows(e, ws[..|ws| - 1]), ws[|ws| - 1], clock);
    }
  }

  lemma {:induction false} ObserveWindowsMoves(e: Entry, ws: seq<Window>)
    ensures MovesTogether(e, ObserveWindows(e, ws))
  {
    if ws != [] {
      var before := ObserveWindows(e, ws[..|ws| - 1]);
      ObserveWindowsMoves(e, ws[..|ws| - 1]);
      ObserveWindowMoves(before, ws[|ws| - 1]);
      MovesTransitive(e, before, ObserveWindows(e, ws));
    }
  }

  ghost predicate EffectOn(e: Entry, e': Entry, reported: bool, id: WindowId) {
    && Version(e', id) >= Version(e, id)
    && (if reported then id in e'.windows && id !in e'.blocked && Version(e', id) > Version(e, id)
        else (id in e'.blocked <==> id in e.blocked) && (id in e.blocked ==> e'.blocked[id] == e.blocked[id]))
  }

  lemma EffectExtends(e: Entry, before: Entry, after: Entry, w: Window, seen: bool, id: WindowId)
    requires EffectOn(e, before, seen, id) && after == ObserveWindow(before, w)
    ensures EffectOn(e, after, seen || w.id == id, id)
  {
    ObserveWindowEffect(before, w);
  }

  lemma {:induction false} ObserveWindowsEffect(e: Entry, ws: seq<Window>, id: WindowId)
    ensures EffectOn(e, ObserveWindows(e, ws), id in Seen(ws), id)
  {
    if ws != [] {
      var before, w := ws[..|ws| - 1], ws[|ws| - 1];
      ObserveWindowsEffect(e, before, id);
      EffectExtends(e, ObserveWindows(e, before), ObserveWindows(e, ws), w, id in Seen(before), id);
      assert ws == before + [w];
      assert Seen(ws) == Seen(before) + {w.id};
    }
  }

  lemma MarkDirtyMoves(e: Entry, id: WindowId, now: int)
    ensures MovesTogether(e, MarkDirty(e, id, now))
  {
    LogMoves(e.log, Invalidated(id));
  }

  lemma WakeLaneMoves(e: Entry, id: WindowId, now: int)
    ensures MovesTogether(e, WakeLane(e, id, now))
  {
    LogMoves(e.log, Woke(id, now));
  }

  lemma RefuseMoves(e: Entry, id: WindowId, seen: set<WindowId>, now: int)
    ensures MovesTogether(e, Refuse(e, id, seen, now))
  {
    if id !in seen && id !in e.dirty {
      MarkDirtyMoves(e, id, now);
      WakeLaneMoves(MarkDirty(e, id, now), id, now);
      MovesTransitive(e, MarkDirty(e, id, now), Refuse(e, id, seen, now));
    }
  }

  lemma RefuseKeeps(e: Entry, id: WindowId, seen: set<WindowId>, now: int)
    requires EntryInv(e, now)
    ensures EntryInv(Refuse(e, id, seen, now), now)
    ensures MovesTogether(e, Refuse(e, id, seen, now))
  {
    RefuseMoves(e, id, seen, now);
    if id in seen {
      var e' := Refuse(e, id, seen, now);
      assert LaneKeepsBackoff(e', 0, now) && LaneKeepsBackoff(e', 1, now);
    } else if id !in e.dirty {
      MarkDirtyKeeps(e, id, now);
      WakeLaneKeeps(MarkDirty(e, id, now), id, now);
    }
  }

  lemma {:induction false} RefuseAllKeeps(e: Entry, ids: seq<WindowId>, seen: set<WindowId>, now: int)
    requires EntryInv(e, now)
    ensures EntryInv(RefuseAll(e, ids, seen, now), now)
    ensures MovesTogether(e, RefuseAll(e, ids, seen, now))
  {
    if ids != [] {
      RefuseAllKeeps(e, ids[..|ids| - 1], seen, now);
      RefuseKeeps(RefuseAll(e, ids[..|ids| - 1], seen, now), ids[|ids| - 1], seen, now);
    }
  }

  /** A refusal blocks only windows its own observation reported. */
  lemma RefuseBlocks(e: Entry, id: WindowId, seen: set<WindowId>, now: int, j: WindowId)
    ensures j in Refuse(e, id, seen, now).blocked ==> j in e.blocked || j in seen
    ensures j in e.blocked && j !in seen ==>
            j in Refuse(e, id, seen, now).blocked && Refuse(e, id, seen, now).blocked[j] == e.blocked[j]
  {
    assert WakeLane(MarkDirty(e, id, now), id, now).blocked == e.blocked;
  }

  /** A refusal blocks only windows its own observation reported. */
  lemma {:induction false} RefuseAllBlocks(e: Entry, ids: seq<WindowId>, seen: set<WindowId>, now: int, j: WindowId)
    ensures var e' := RefuseAll(e, ids, seen, now);
            && (j in e'.blocked ==> j in e.blocked || j in seen)
            && (j in e.blocked && j !in seen ==> j in e'.blocked && e'.blocked[j] == e.blocked[j])
  {
    if ids != [] {
      RefuseAllBlocks(e, ids[..|ids| - 1], seen, now, j);
      RefuseBlocks(RefuseAll(e, ids[..|ids| - 1], seen, now), ids[|ids| - 1], seen, now, j);
    }
  }

  function Touched(e: Entry, ws: seq<Window>, now: int): Entry {
    e.(lastUsed := now, notAuthenticated := e.notAuthenticated && ws == [])
  }

  lemma TouchedKeeps(e: Entry, ws: seq<Window>, now: int)
    requires EntryInv(e, now)
    ensures EntryInv(Touched(e, ws, now), now)
    ensures MovesTogether(e, Touched(e, ws, now))
  {
    assert LaneKeepsBackoff(Touched(e, ws, now), 0, now) && LaneKeepsBackoff(Touched(e, ws, now), 1, now);
  }

  lemma ObserveKeeps(e: Entry, ws: seq<Window>, refusal: Refusal, now: int)
    requires EntryInv(e, now)
    ensures EntryInv(Observe(e, ws, refusal, now), now)
    ensures MovesTogether(e, Observe(e, ws, refusal, now))
  {
    var e0 := Touched(e, ws, now);
    var e1 := ObserveWindows(e0, ws);
    TouchedKeeps(e, ws, now);
    ObserveWindowsKeeps(e0, ws, now);
    ObserveWindowsMoves(e0, ws);
    RefuseAllKeeps(e1, RefusedIds(refusal), Seen(ws), now);
    MovesTransitive(e, e0, e1);
    MovesTransitive(e, e1, Observe(e, ws, refusal, now));
  }

  /** After an observation a block is either an old one on an unreported window, or on a window whose version this
      observation moved. */
  lemma ObserveBlocks(e: Entry, ws: seq<Window>, refusal: Refusal, now: int, id: WindowId)
    requires EntryInv(e, now)
    ensures var e' := Observe(e, ws, refusal, now);
            && (id in e'.blocked ==> id in e.blocked || id in Seen(ws))
            && (id in Seen(ws) ==> Version(e', id) > Version(e, id))
            && (id in e.blocked && id !in Seen(ws) ==> id in e'.blocked && e'.blocked[id] == e.blocked[id])
  {
    var e0 := Touched(e, ws, now);
    var e1 := ObserveWindows(e0, ws);
    ObserveWindowsEffect(e0, ws, id);
    TouchedKeeps(e, ws, now);
    ObserveWindowsKeeps(e0, ws, now);
    RefuseAllBlocks(e1, RefusedIds(refusal), Seen(ws), now, id);
    RefuseAllKeeps(e1, RefusedIds(refusal), Seen(ws), now);
  }

  /******* Every step and every run *******/

  lemma Later(e: Entry, clock: int, now: int)
    requires EntryInv(e, clock) && now >= clock
    ensures EntryInv(e, now)
  {
  }

  lemma NoteSnapKeeps(e: Entry, lane: nat, now: int)
    requires EntryInv(e, now)
    ensures EntryInv(Note(e, Snapped(lane)), now)
    ensures SnapshotTracks(Note(e, Snapped(lane)), Snapshot(e))
  {
    LogStep(e.log, Snapped(lane));
    LogMoves(e.log, Snapped(lane));
    assert LaneKeepsBackoff(Note(e, Snapped(lane)), 0, now);
    assert LaneKeepsBackoff(Note(e, Snapped(lane)), 1, now);
    forall id ensures id in Snapshot(e) && Snapshot(e)[id] == Version(e, id) {
      match id { case Session => case Weekly => case Fable => }
    }
  }

  lemma SnapKeeps(st: State, now: int)
    requires Inv(st) && Enabled(st, Snap(now))
    ensures Inv(Next(st, Snap(now)))
  {
    Later(st.e, st.clock, now);
    ExpireKeeps(st.e, now);
    NoteSnapKeeps(Expire(st.e, now), st.flight.lane, now);
  }

  lemma TurnKeeps(st: State, ws: seq<Window>, refusal: Refusal, now: int)
    requires Inv(st) && Enabled(st, Turn(ws, refusal, now))
    ensures Inv(Next(st, Turn(ws, refusal, now)))
  {
    Later(st.e, st.clock, now);
    ObserveKeeps(st.e, ws, refusal, now);
    forall id { ObserveBlocks(st.e, ws, refusal, now, id); }
    ObserveRunning(st.e, ws, refusal, now);
  }

  lemma {:induction false} ObserveWindowsRunning(e: Entry, ws: seq<Window>)
    ensures ObserveWindows(e, ws).running == e.running
  {
    if ws != [] { ObserveWindowsRunning(e, ws[..|ws| - 1]); }
  }

  lemma {:induction false} RefuseAllRunning(e: Entry, ids: seq<WindowId>, seen: set<WindowId>, now: int)
    ensures RefuseAll(e, ids, seen, now).running == e.running
  {
    if ids != [] { RefuseAllRunning(e, ids[..|ids| - 1], seen, now); }
  }

  lemma ObserveRunning(e: Entry, ws: seq<Window>, refusal: Refusal, now: int)
    ensures Observe(e, ws, refusal, now).running == e.running
  {
    var e0 := Touched(e, ws, now);
    ObserveWindowsRunning(e0, ws);
    RefuseAllRunning(ObserveWindows(e0, ws), RefusedIds(refusal), Seen(ws), now);
  }

  lemma {:induction false} StoreWindowsRunning(e: Entry, lane: nat, ws: seq<Window>, exhausted: Option<WindowId>,
                                               versions: map<WindowId, nat>, nextBefore: int, now: int)
    requires lane < 2
    ensures StoreWindows(e, lane, ws, exhausted, versions, nextBefore, now).running == e.running
  {
    if ws != [] {
      StoreWindowsRunning(e, lane, ws[..|ws| - 1], exhausted, versions, nextBefore, now);
      StoreWindowTouches(StoreWindows(e, lane, ws[..|ws| - 1], exhausted, versions, nextBefore, now), lane,
                         ws[|ws| - 1], exhausted, versions, nextBefore, now);
    }
  }

  lemma ApplyProbeRunning(e: Entry, lane: nat, answer: Answer, err: Option<string>, versions: map<WindowId, nat>, now: int)
    requires lane < 2
    ensures ApplyProbe(e, lane, answer, err, versions, now).running == e.running
  {
    var accepted := AcceptProbe(e, lane, answer, now);
    assert accepted.running == e.running;
    StoreWindowsRunning(accepted, lane, answer.windows, answer.exhausted, versions, e.lanes.At(lane).next, now);
  }

  lemma ReplyKeeps(st: State, answer: Answer, err: Option<string>, ctxDone: bool, now: int)
    requires Inv(st) && Enabled(st, Reply(answer, err, ctxDone, now))
    ensures Inv(Next(st, Reply(answer, err, ctxDone, now)))
  {
    var lane := st.flight.lane;
    Later(st.e, st.clock, now);
    ApplyProbeKeeps(st.e, lane, answer, err, st.flight.versions, now);
    ApplyProbeRunning(st.e, lane, answer, err, st.flight.versions, now);
  }

  /** A reader that only looks, waits, starts or leaves. */
  lemma QuietKeeps(st: State, l: Label)
    requires Inv(st) && Enabled(st, l) && !l.Snap? && !l.Reply? && !l.Turn?
    ensures Inv(Next(st, l))
  {
    match l {
      case Skip =>
      case Finish =>
        assert LaneKeepsBackoff(Next(st, l).e, 0, st.clock) && LaneKeepsBackoff(Next(st, l).e, 1, st.clock);
      case Join(now) =>
        assert LaneKeepsBackoff(Next(st, l).e, 0, now) && LaneKeepsBackoff(Next(st, l).e, 1, now);
      case Hit(now) =>
        Later(st.e, st.clock, now);
        ExpireKeeps(st.e, now);
        assert LaneKeepsBackoff(Next(st, l).e, 0, now) && LaneKeepsBackoff(Next(st, l).e, 1, now);
      case Begin(now) =>
        Later(st.e, st.clock, now);
        ExpireKeeps(st.e, now);
        assert LaneKeepsBackoff(Next(st, l).e, 0, now) && LaneKeepsBackoff(Next(st, l).e, 1, now);
    }
  }

  lemma StepKeeps(st: State, l: Label)
    requires Inv(st) && Enabled(st, l)
    ensures Inv(Next(st, l))
  {
    match l {
      case Snap(now) => SnapKeeps(st, now);
      case Reply(answer, err, ctxDone, now) => ReplyKeeps(st, answer, err, ctxDone, now);
      case Turn(ws, refusal, now) => TurnKeeps(st, ws, refusal, now);
      case Skip => QuietKeeps(st, l);
      case Finish => QuietKeeps(st, l);
      case Join(now) => QuietKeeps(st, l);
      case Hit(now) => QuietKeeps(st, l);
      case Begin(now) => QuietKeeps(st, l);
    }
  }

  lemma {:induction false} RunKeeps(st: State, ls: seq<Label>)
    requires Inv(st) && Legal(st, ls)
    ensures Inv(Run(st, ls))
    decreases |ls|
  {
    if ls != [] {
      StepKeeps(st, ls[0]);
      RunKeeps(Next(st, ls[0]), ls[1..]);
    }
  }
}
