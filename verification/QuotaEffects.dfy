/**
 What one probe answer and one turn observation leave in an entry, field by field: which windows are blocked and until
 when, which are dirty, and when each lane is due again.
 */
module QuotaEffects {
  import opened Options
  import opened QuotaEntry
  import opened QuotaMachine
  import opened QuotaTheorems

  /** The reset a window is blocked until, if it is. */
  function BlockOf(e: Entry, id: WindowId): Option<int> {
    if id in e.blocked then Some(e.blocked[id]) else None
  }

  /******* A probe's answer *******/

  /** The answer's windows of this id are stored: nothing moved it since the snapshot, and the lane does not skip it. */
  predicate Stores(e: Entry, lane: nat, versions: map<WindowId, nat>, id: WindowId) {
    At(e.versions, id, 0) == At(versions, id, 0) && !(lane == 0 && id == Fable)
  }

  /** A stale answer of a window a refusal has marked gives the lane its old deadline back. */
  predicate Restores(e: Entry, lane: nat, versions: map<WindowId, nat>, w: Window) {
    At(e.versions, w.id, 0) != At(versions, w.id, 0) && w.id in e.dirty && !(lane == 0 && w.id == Fable)
  }

  /** A stored window of the lane's own is due again at its refresh time. */
  predicate Shortens(e: Entry, lane: nat, versions: map<WindowId, nat>, now: int, w: Window) {
    At(e.versions, w.id, 0) == At(versions, w.id, 0) && (w.id == Fable <==> lane == 1) && now < w.refreshAt
  }

  lemma PutEffect(e: Entry, w: Window, exhausted: Option<WindowId>, now: int, id: WindowId)
    ensures var f := PutWindow(e, w, exhausted, now);
            && SameBut(e, f) && f.lanes == e.lanes
            && (id in f.dirty <==> id in e.dirty && w.id != id)
            && BlockOf(f, id) == (if w.id != id then BlockOf(e, id)
                                  else if exhausted == Some(id) && w.resetsAt > now then Some(w.resetsAt) else None)
  {
  }

  lemma NextEffect(e: Entry, lane: nat, next: int)
    requires lane < 2
    ensures var f := SetNext(e, lane, next);
            && SameBut(e, f) && f.dirty == e.dirty && f.blocked == e.blocked
            && f.lanes.At(lane) == e.lanes.At(lane).(next := next) && f.lanes.At(1 - lane) == e.lanes.At(1 - lane)
  {
  }

  /** What an answer's windows leave alone. */
  predicate SameBut(e: Entry, f: Entry) {
    && f.versions == e.versions && f.invalidatedUntil == e.invalidatedUntil
    && f.notAuthenticated == e.notAuthenticated && f.lastUsed == e.lastUsed
  }

  lemma StoreOneIs(e: Entry, lane: nat, w: Window, exhausted: Option<WindowId>,
                   versions: map<WindowId, nat>, nextBefore: int, now: int)
    requires lane < 2
    ensures StoreWindow(e, lane, w, exhausted, versions, nextBefore, now) ==
            if Restores(e, lane, versions, w) then SetNext(e, lane, nextBefore)
            else if !Stores(e, lane, versions, w.id) then e
            else if (w.id == Fable <==> lane == 1) && now < w.refreshAt < e.lanes.At(lane).next
            then SetNext(PutWindow(e, w, exhausted, now), lane, w.refreshAt)
            else PutWindow(e, w, exhausted, now)
  {
  }

  lemma StoreOneEffect(e: Entry, lane: nat, w: Window, exhausted: Option<WindowId>,
                       versions: map<WindowId, nat>, nextBefore: int, now: int, id: WindowId)
    requires lane < 2
    ensures var f := StoreWindow(e, lane, w, exhausted, versions, nextBefore, now);
            && SameBut(e, f)
            && (id in f.dirty <==> id in e.dirty && !(w.id == id && Stores(e, lane, versions, id)))
            && BlockOf(f, id) == (if w.id == id && Stores(e, lane, versions, id)
                                  then (if exhausted == Some(id) && w.resetsAt > now then Some(w.resetsAt) else None)
                                  else BlockOf(e, id))
  {
    var put := PutWindow(e, w, exhausted, now);
    StoreOneIs(e, lane, w, exhausted, versions, nextBefore, now);
    PutEffect(e, w, exhausted, now, id);
    NextEffect(e, lane, nextBefore);
    NextEffect(put, lane, w.refreshAt);
  }

  lemma StoreOneTimes(e: Entry, lane: nat, w: Window, exhausted: Option<WindowId>,
                      versions: map<WindowId, nat>, nextBefore: int, now: int)
    requires lane < 2
    ensures var f := StoreWindow(e, lane, w, exhausted, versions, nextBefore, now);
            && f.lanes.At(1 - lane) == e.lanes.At(1 - lane)
            && f.lanes.At(lane) == e.lanes.At(lane).(next :=
                 if Restores(e, lane, versions, w) then nextBefore
                 else if Shortens(e, lane, versions, now, w) && w.refreshAt < e.lanes.At(lane).next then w.refreshAt
                 else e.lanes.At(lane).next)
  {
    var put := PutWindow(e, w, exhausted, now);
    StoreOneIs(e, lane, w, exhausted, versions, nextBefore, now);
    PutEffect(e, w, exhausted, now, w.id);
    NextEffect(e, lane, nextBefore);
    NextEffect(put, lane, w.refreshAt);
  }

  lemma {:induction false} StoreAllEffect(e: Entry, lane: nat, ws: seq<Window>, exhausted: Option<WindowId>,
                                          versions: map<WindowId, nat>, nextBefore: int, now: int, id: WindowId)
    requires lane < 2
    ensures var f := StoreWindows(e, lane, ws, exhausted, versions, nextBefore, now);
            && SameBut(e, f)
            && (id in f.dirty <==> id in e.dirty && !(LastOf(ws, id).Some? && Stores(e, lane, versions, id)))
            && BlockOf(f, id) == (if LastOf(ws, id).Some? && Stores(e, lane, versions, id)
                                  then (if exhausted == Some(id) && LastOf(ws, id).value.resetsAt > now
                                        then Some(LastOf(ws, id).value.resetsAt) else None)
                                  else BlockOf(e, id))
  {
    if ws != [] {
      var head, w := ws[..|ws| - 1], ws[|ws| - 1];
      StoreAllEffect(e, lane, head, exhausted, versions, nextBefore, now, id);
      StoreOneEffect(StoreWindows(e, lane, head, exhausted, versions, nextBefore, now), lane, w, exhausted, versions,
                     nextBefore, now, id);
    }
  }

  /** The least of a start and the refresh times of the lane's own stored windows. */
  ghost predicate Earliest(e: Entry, lane: nat, versions: map<WindowId, nat>, now: int, ws: seq<Window>, start: int, next: int) {
    && next <= start && (forall w :: w in ws && Shortens(e, lane, versions, now, w) ==> next <= w.refreshAt)
    && (next == start || exists w :: w in ws && Shortens(e, lane, versions, now, w) && next == w.refreshAt)
  }

  /** From where in the answer the lane's deadline counts: past the last window that gives the old one back. */
  ghost predicate CountsFrom(e: Entry, lane: nat, versions: map<WindowId, nat>, ws: seq<Window>, k: nat) {
    && k <= |ws| && (k > 0 ==> Restores(e, lane, versions, ws[k - 1]))
    && forall j :: k <= j < |ws| ==> !Restores(e, lane, versions, ws[j])
  }

  lemma EarliestSnoc(e: Entry, lane: nat, versions: map<WindowId, nat>, now: int, ws: seq<Window>, w: Window, start: int, next: int)
    requires Earliest(e, lane, versions, now, ws, start, next)
    ensures Earliest(e, lane, versions, now, ws + [w], start,
                     if Shortens(e, lane, versions, now, w) && w.refreshAt < next then w.refreshAt else next)
  {
    if !(Shortens(e, lane, versions, now, w) && w.refreshAt < next) && next != start {
      var v :| v in ws && Shortens(e, lane, versions, now, v) && next == v.refreshAt;
      assert v in ws + [w];
    } else {
      assert w in ws + [w];
    }
  }

  /** A step of the fold moves neither versions nor the marks of stale windows, so every window is judged as at first. */
  lemma JudgedAlike(e: Entry, f: Entry, lane: nat, versions: map<WindowId, nat>, now: int, w: Window)
    requires f.versions == e.versions && lane < 2
    requires !Stores(e, lane, versions, w.id) ==> (w.id in f.dirty <==> w.id in e.dirty)
    ensures Restores(f, lane, versions, w) == Restores(e, lane, versions, w)
    ensures Shortens(f, lane, versions, now, w) == Shortens(e, lane, versions, now, w)
  {
  }

  /** The fold so far: where the deadline counts from, and what it is. */
  ghost predicate Timed(e: Entry, f: Entry, lane: nat, versions: map<WindowId, nat>, now: int, ws: seq<Window>, nextBefore: int, k: nat)
    requires lane < 2
  {
    && CountsFrom(e, lane, versions, ws, k)
    && f.lanes.At(1 - lane) == e.lanes.At(1 - lane) && f.lanes.At(lane) == e.lanes.At(lane).(next := f.lanes.At(lane).next)
    && Earliest(e, lane, versions, now, ws[k..], if k > 0 then nextBefore else e.lanes.At(lane).next, f.lanes.At(lane).next)
  }

  lemma TimedSnoc(e: Entry, f: Entry, g: Entry, lane: nat, versions: map<WindowId, nat>, now: int, ws: seq<Window>, w: Window,
                  nextBefore: int, k: nat)
    requires lane < 2 && Timed(e, f, lane, versions, now, ws, nextBefore, k)
    requires g.lanes.At(1 - lane) == f.lanes.At(1 - lane)
    requires g.lanes.At(lane) == f.lanes.At(lane).(next :=
               if Restores(e, lane, versions, w) then nextBefore
               else if Shortens(e, lane, versions, now, w) && w.refreshAt < f.lanes.At(lane).next then w.refreshAt
               else f.lanes.At(lane).next)
    ensures Timed(e, g, lane, versions, now, ws + [w], nextBefore, if Restores(e, lane, versions, w) then |ws| + 1 else k)
  {
    if !Restores(e, lane, versions, w) {
      EarliestSnoc(e, lane, versions, now, ws[k..], w, if k > 0 then nextBefore else e.lanes.At(lane).next, f.lanes.At(lane).next);
      assert (ws + [w])[k..] == ws[k..] + [w];
    } else {
      assert (ws + [w])[|ws| + 1..] == [];
    }
  }

  lemma StoreOneTimed(e: Entry, f: Entry, lane: nat, ws: seq<Window>, w: Window, exhausted: Option<WindowId>,
                      versions: map<WindowId, nat>, nextBefore: int, now: int, k: nat)
    requires lane < 2 && Timed(e, f, lane, versions, now, ws, nextBefore, k) && f.versions == e.versions
    requires !Stores(e, lane, versions, w.id) ==> (w.id in f.dirty <==> w.id in e.dirty)
    ensures Timed(e, StoreWindow(f, lane, w, exhausted, versions, nextBefore, now), lane, versions, now, ws + [w], nextBefore,
                  if Restores(e, lane, versions, w) then |ws| + 1 else k)
  {
    StoreOneTimes(f, lane, w, exhausted, versions, nextBefore, now);
    JudgedAlike(e, f, lane, versions, now, w);
    TimedSnoc(e, f, StoreWindow(f, lane, w, exhausted, versions, nextBefore, now), lane, versions, now, ws, w, nextBefore, k);
  }

  lemma {:induction false} StoreAllTimes(e: Entry, lane: nat, ws: seq<Window>, exhausted: Option<WindowId>,
                                         versions: map<WindowId, nat>, nextBefore: int, now: int) returns (k: nat)
    requires lane < 2
    ensures Timed(e, StoreWindows(e, lane, ws, exhausted, versions, nextBefore, now), lane, versions, now, ws, nextBefore, k)
  {
    k := 0;
    if ws != [] {
      var head, w := ws[..|ws| - 1], ws[|ws| - 1];
      k := StoreAllTimes(e, lane, head, exhausted, versions, nextBefore, now);
      StoreAllEffect(e, lane, head, exhausted, versions, nextBefore, now, w.id);
      StoreOneTimed(e, StoreWindows(e, lane, head, exhausted, versions, nextBefore, now), lane, head, w, exhausted, versions,
                    nextBefore, now, k);
      assert ws == head + [w];
      k := if Restores(e, lane, versions, w) then |ws| else k;
    }
  }

  lemma AcceptEffect(e: Entry, lane: nat, answer: Answer, now: int)
    requires lane < 2
    ensures var f := AcceptProbe(e, lane, answer, now);
            var ttl := if answer.unavailable || answer.notAuthenticated then 21600 else if lane == 1 then 1800 else 300;
            var next := if answer.retryAfter > now + ttl then answer.retryAfter else now + ttl;
            && f.versions == e.versions && f.dirty == e.dirty && f.blocked == e.blocked && f.invalidatedUntil == e.invalidatedUntil
            && f.lastUsed == e.lastUsed && f.notAuthenticated == answer.notAuthenticated
            && f.lanes.At(lane) == Lane(None, next, 0)
            && f.lanes.At(1 - lane) == (if answer.notAuthenticated then e.lanes.At(1 - lane).(next := next, err := None)
                                        else e.lanes.At(1 - lane))
  {
  }

  /** A window the answer names is blocked until its reset exactly if the answer calls it exhausted, the reset lies ahead
      and nothing moved the window since the probe's snapshot; every other window keeps its block as it was. */
  lemma AnswerBlocks(st: State, answer: Answer, err: Option<string>, ctxDone: bool, now: int, id: WindowId)
    requires Inv(st) && Enabled(st, Reply(answer, err, ctxDone, now))
    ensures var e, f := st.e, Next(st, Reply(answer, err, ctxDone, now)).e;
            var answered := LastOf(answer.windows, id);
            if err.None? && answered.Some? && MovedSinceSnap(e.log, id) == 0 && !(st.flight.lane == 0 && id == Fable)
            then (if answer.exhausted == Some(id) && answered.value.resetsAt > now
                  then id in f.blocked && f.blocked[id] == answered.value.resetsAt
                  else id !in f.blocked)
            else BlockOf(f, id) == BlockOf(e, id)
  {
    if err.None? {
      var lane := st.flight.lane;
      var accepted := AcceptProbe(st.e, lane, answer, now);
      AcceptEffect(st.e, lane, answer, now);
      StoreAllEffect(accepted, lane, answer.windows, answer.exhausted, st.flight.versions, st.e.lanes.At(lane).next, now, id);
      assert id in st.flight.versions;
    }
  }

  /** An answer moves no version, and unmarks exactly the windows it stores. */
  lemma AnswerMarks(st: State, answer: Answer, err: Option<string>, ctxDone: bool, now: int, id: WindowId)
    requires Inv(st) && Enabled(st, Reply(answer, err, ctxDone, now))
    ensures var e, f := st.e, Next(st, Reply(answer, err, ctxDone, now)).e;
            && f.versions == e.versions && f.invalidatedUntil == e.invalidatedUntil && f.lastUsed == e.lastUsed
            && f.notAuthenticated == (if err.None? then answer.notAuthenticated else e.notAuthenticated)
            && (id in f.dirty <==>
                  id in e.dirty && !(err.None? && LastOf(answer.windows, id).Some? && MovedSinceSnap(e.log, id) == 0
                                     && !(st.flight.lane == 0 && id == Fable)))
  {
    if err.None? {
      var lane := st.flight.lane;
      AcceptEffect(st.e, lane, answer, now);
      StoreAllEffect(AcceptProbe(st.e, lane, answer, now), lane, answer.windows, answer.exhausted, st.flight.versions,
                     st.e.lanes.At(lane).next, now, id);
      assert id in st.flight.versions;
    }
  }

  /** When a lane is due again. After a failure: 5, 15 or 60 minutes on, and not before the provider's retry time. After
      an answer: at the time to live or the earliest refresh of the lane's own stored windows, unless a stale answer of a
      marked window gave the lane its old deadline back, and again not before the retry time. The other lane is left
      alone, except that a not-authenticated answer parks both. */
  lemma AnswerTimesLane(st: State, answer: Answer, err: Option<string>, ctxDone: bool, now: int) returns (k: nat, next: int)
    requires Inv(st) && Enabled(st, Reply(answer, err, ctxDone, now))
    ensures err.Some? ==>
              var lane, was := st.flight.lane, st.e.lanes.At(st.flight.lane);
              var f := Next(st, Reply(answer, err, ctxDone, now)).e;
              var back := now + (if was.failures == 0 then 300 else if was.failures == 1 then 900 else 3600);
              && f.lanes.At(lane) == Lane(err, if answer.retryAfter > back then answer.retryAfter else back, was.failures + 1)
              && f.lanes.At(1 - lane) == st.e.lanes.At(1 - lane)
    ensures err.None? ==>
              var lane, versions := st.flight.lane, st.flight.versions;
              var f := Next(st, Reply(answer, err, ctxDone, now)).e;
              var ttl := if answer.unavailable || answer.notAuthenticated then 21600 else if lane == 1 then 1800 else 300;
              var start := if answer.retryAfter > now + ttl then answer.retryAfter else now + ttl;
              && f.lanes.At(lane).err.None? && f.lanes.At(lane).failures == 0
              && f.lanes.At(1 - lane) == (if answer.notAuthenticated then st.e.lanes.At(1 - lane).(next := start, err := None)
                                          else st.e.lanes.At(1 - lane))
              && CountsFrom(st.e, lane, versions, answer.windows, k)
              && Earliest(st.e, lane, versions, now, answer.windows[k..],
                          if k > 0 then st.e.lanes.At(lane).next else start, next)
              && f.lanes.At(lane).next == if answer.retryAfter > next then answer.retryAfter else next
  {
    k, next := 0, 0;
    if err.None? {
      var lane := st.flight.lane;
      var accepted := AcceptProbe(st.e, lane, answer, now);
      AcceptEffect(st.e, lane, answer, now);
      k := StoreAllTimes(accepted, lane, answer.windows, answer.exhausted, st.flight.versions, st.e.lanes.At(lane).next, now);
      var stored := StoreWindows(accepted, lane, answer.windows, answer.exhausted, st.flight.versions, st.e.lanes.At(lane).next, now);
      next := stored.lanes.At(lane).next;
      SameJudgement(st.e, accepted, lane, st.flight.versions, now, answer.windows, k,
                    if k > 0 then st.e.lanes.At(lane).next else accepted.lanes.At(lane).next, next);
    }
  }

  lemma SameJudgement(e: Entry, f: Entry, lane: nat, versions: map<WindowId, nat>, now: int, ws: seq<Window>, k: nat, start: int, next: int)
    requires f.versions == e.versions && f.dirty == e.dirty && k <= |ws|
    requires CountsFrom(f, lane, versions, ws, k) && Earliest(f, lane, versions, now, ws[k..], start, next)
    ensures CountsFrom(e, lane, versions, ws, k) && Earliest(e, lane, versions, now, ws[k..], start, next)
  {
    if next != start {
      var w :| w in ws[k..] && Shortens(f, lane, versions, now, w) && next == w.refreshAt;
      assert Shortens(e, lane, versions, now, w);
    }
    forall w | w in ws[k..] && Shortens(e, lane, versions, now, w) ensures next <= w.refreshAt {
      assert Shortens(f, lane, versions, now, w);
    }
    if k > 0 { assert Restores(f, lane, versions, ws[k - 1]); }
    forall j | k <= j < |ws| ensures !Restores(e, lane, versions, ws[j]) { assert !Restores(f, lane, versions, ws[j]); }
  }

  /******* A turn's observation *******/

  /** The refusal is about this window: it names it, or names none it knows. */
  predicate Refused(refusal: Refusal, id: WindowId) {
    refusal.Unclassified? || refusal == Exhausted(id)
  }

  /** How often the turn reports the window. */
  function Count(ws: seq<Window>, id: WindowId): nat {
    if ws == [] then 0 else Count(ws[..|ws| - 1], id) + if ws[|ws| - 1].id == id then 1 else 0
  }

  /** The last window of the turn that a lane is for: lane 1 is Fable's, lane 0 the others'. */
  function LastFor(ws: seq<Window>, lane: nat): Option<Window> {
    if ws == [] then None
    else if ws[|ws| - 1].id == Fable <==> lane == 1 then Some(ws[|ws| - 1])
    else LastFor(ws[..|ws| - 1], lane)
  }

  /** One window's part of an entry. */
  datatype Part = Part(window: Option<Window>, version: nat, dirty: bool, block: Option<int>, quietUntil: int)

  function PartOf(e: Entry, id: WindowId): Part {
    Part(Lookup(e.windows, id), At(e.versions, id, 0), id in e.dirty, BlockOf(e, id), At(e.invalidatedUntil, id, 0))
  }

  lemma ReportPart(e: Entry, w: Window, id: WindowId)
    ensures var f := ReportWindow(e, w);
            && f.lastUsed == e.lastUsed && f.notAuthenticated == e.notAuthenticated && f.lanes == e.lanes
            && PartOf(f, id) == if w.id == id then Part(Some(w), PartOf(e, id).version + 1, false, None, PartOf(e, id).quietUntil)
                                else PartOf(e, id)
  {
  }

  lemma NextPart(e: Entry, lane: nat, next: int, id: WindowId)
    requires lane < 2
    ensures var f := SetNext(e, lane, next);
            f.lastUsed == e.lastUsed && f.notAuthenticated == e.notAuthenticated && PartOf(f, id) == PartOf(e, id)
  {
  }

  lemma ReportOneEffect(e: Entry, w: Window, id: WindowId, lane: nat)
    requires lane < 2
    ensures var f := ObserveWindow(e, w);
            && f.lastUsed == e.lastUsed && f.notAuthenticated == e.notAuthenticated
            && PartOf(f, id) == (if w.id == id then Part(Some(w), PartOf(e, id).version + 1, false, None, PartOf(e, id).quietUntil)
                                 else PartOf(e, id))
            && f.lanes.At(lane) == (if (w.id == Fable <==> lane == 1) && e.lanes.At(lane).failures == 0
                                    then e.lanes.At(lane).(next := w.refreshAt) else e.lanes.At(lane))
  {
    ReportPart(e, w, id);
    NextPart(ReportWindow(e, w), LaneOf(w.id), w.refreshAt, id);
    NextEffect(ReportWindow(e, w), LaneOf(w.id), w.refreshAt);
  }

  lemma {:induction false} ReportAllEffect(e: Entry, ws: seq<Window>, id: WindowId, lane: nat)
    requires lane < 2
    ensures var f := ObserveWindows(e, ws);
            && f.lastUsed == e.lastUsed && f.notAuthenticated == e.notAuthenticated
            && PartOf(f, id) == (if LastOf(ws, id).Some?
                                 then Part(LastOf(ws, id), PartOf(e, id).version + Count(ws, id), false, None, PartOf(e, id).quietUntil)
                                 else PartOf(e, id))
            && f.lanes.At(lane) == (if LastFor(ws, lane).Some? && e.lanes.At(lane).failures == 0
                                    then e.lanes.At(lane).(next := LastFor(ws, lane).value.refreshAt) else e.lanes.At(lane))
  {
    if ws != [] {
      var head, w := ws[..|ws| - 1], ws[|ws| - 1];
      ReportAllEffect(e, head, id, lane);
      NoneCounted(head, id);
      ReportOneEffect(ObserveWindows(e, head), w, id, lane);
    }
  }

  lemma {:induction false} NoneCounted(ws: seq<Window>, id: WindowId)
    ensures LastOf(ws, id).None? <==> Count(ws, id) == 0
  {
    if ws != [] { NoneCounted(ws[..|ws| - 1], id); }
  }

  /** The refusal lets the window's lane probe at once: the lane is not failing, and it did not do so before within one
      time to live. */
  predicate Wakes(p: Part, failures: nat, seen: bool, now: int) {
    !seen && !p.dirty && failures == 0 && now >= p.quietUntil
  }

  function FailuresFor(e: Entry, id: WindowId): nat {
    if id == Fable then e.lanes.fable.failures else e.lanes.haiku.failures
  }

  /** A refused window: blocked until its reset if the turn reported it with one that lies ahead, and otherwise marked,
      once, to be read again at once. */
  function RefusedPart(p: Part, failures: nat, seen: bool, id: WindowId, now: int): Part {
    if seen then
      if p.window.Some? && p.window.value.resetsAt > now then p.(block := Some(p.window.value.resetsAt)) else p
    else if p.dirty then p
    else Part(if p.window.Some? then Some(p.window.value.(refreshAt := now)) else None, p.version + 1, true, p.block,
              if Wakes(p, failures, seen, now) then now + (if id == Fable then 1800 else 300) else p.quietUntil)
  }

  lemma MarkPart(e: Entry, x: WindowId, now: int, id: WindowId)
    ensures var f := MarkDirty(e, x, now);
            && f.lastUsed == e.lastUsed && f.notAuthenticated == e.notAuthenticated && f.lanes == e.lanes
            && PartOf(f, id) ==
                 if x != id then PartOf(e, id)
                 else Part(if id in e.windows then Some(e.windows[id].(refreshAt := now)) else None,
                           PartOf(e, id).version + 1, true, PartOf(e, id).block, PartOf(e, id).quietUntil)
  {
  }

  /** The refusal finds its lane not failing and not woken within one time to live. */
  predicate LaneWakes(e: Entry, x: WindowId, now: int) {
    FailuresFor(e, x) == 0 && now >= At(e.invalidatedUntil, x, 0)
  }

  lemma WakeIs(e: Entry, x: WindowId, now: int)
    ensures WakeLane(e, x, now) ==
            if !LaneWakes(e, x, now) then e
            else var due := SetNext(e, LaneOf(x), ZERO_TIME);
                 Note(due.(invalidatedUntil := due.invalidatedUntil[x := now + Ttl(x)]), Woke(x, now))
  {
  }

  lemma WakePart(e: Entry, x: WindowId, now: int, id: WindowId)
    ensures var f := WakeLane(e, x, now);
            && f.lastUsed == e.lastUsed && f.notAuthenticated == e.notAuthenticated
            && PartOf(f, id) == if x == id && LaneWakes(e, x, now)
                                then PartOf(e, id).(quietUntil := now + if id == Fable then 1800 else 300) else PartOf(e, id)
  {
    WakeIs(e, x, now);
    NextPart(e, LaneOf(x), ZERO_TIME, id);
    QuietPart(SetNext(e, LaneOf(x), ZERO_TIME), x, now + Ttl(x), Woke(x, now), id);
  }

  lemma WakeTimes(e: Entry, x: WindowId, now: int, lane: nat)
    requires lane < 2
    ensures WakeLane(e, x, now).lanes.At(lane) ==
            if (x == Fable <==> lane == 1) && LaneWakes(e, x, now) then e.lanes.At(lane).(next := 0) else e.lanes.At(lane)
  {
    WakeIs(e, x, now);
    NextEffect(e, LaneOf(x), ZERO_TIME);
    QuietPart(SetNext(e, LaneOf(x), ZERO_TIME), x, now + Ttl(x), Woke(x, now), x);
  }

  lemma QuietPart(e: Entry, x: WindowId, until: int, event: Event, id: WindowId)
    ensures var f := Note(e.(invalidatedUntil := e.invalidatedUntil[x := until]), event);
            && f.lastUsed == e.lastUsed && f.notAuthenticated == e.notAuthenticated && f.lanes == e.lanes
            && PartOf(f, id) == if x == id then PartOf(e, id).(quietUntil := until) else PartOf(e, id)
  {
  }

  lemma RefuseOneEffect(e: Entry, x: WindowId, seen: set<WindowId>, now: int, id: WindowId, lane: nat)
    requires lane < 2
    ensures var f := Refuse(e, x, seen, now);
            && f.lastUsed == e.lastUsed && f.notAuthenticated == e.notAuthenticated
            && PartOf(f, id) == (if x == id then RefusedPart(PartOf(e, id), FailuresFor(e, id), id in seen, id, now) else PartOf(e, id))
            && f.lanes.At(lane) == (if (x == Fable <==> lane == 1) && Wakes(PartOf(e, x), FailuresFor(e, x), x in seen, now)
                                    then e.lanes.At(lane).(next := 0) else e.lanes.At(lane))
  {
    if x !in seen && x !in e.dirty {
      MarkPart(e, x, now, id);
      MarkPart(e, x, now, x);
      WakePart(MarkDirty(e, x, now), x, now, id);
      WakeTimes(MarkDirty(e, x, now), x, now, lane);
    } else {
      BlockPart(e, x, seen, now, id);
    }
  }

  lemma BlockPart(e: Entry, x: WindowId, seen: set<WindowId>, now: int, id: WindowId)
    requires x in seen || x in e.dirty
    ensures var f := Refuse(e, x, seen, now);
            && f.lastUsed == e.lastUsed && f.notAuthenticated == e.notAuthenticated && f.lanes == e.lanes
            && PartOf(f, id) == if x == id && id in seen && id in e.windows && e.windows[id].resetsAt > now
                                then PartOf(e, id).(block := Some(e.windows[id].resetsAt)) else PartOf(e, id)
  {
  }

  predicate Distinct(ids: seq<WindowId>) {
    forall i, j :: 0 <= i < j < |ids| ==> ids[i] != ids[j]
  }

  /** Some refused window of the lane lets it probe at once. */
  ghost predicate SomeWakes(e: Entry, ids: seq<WindowId>, seen: set<WindowId>, now: int, lane: nat) {
    exists x :: x in ids && (x == Fable <==> lane == 1) && Wakes(PartOf(e, x), FailuresFor(e, x), x in seen, now)
  }

  lemma {:induction false} RefuseAllFailures(e: Entry, ids: seq<WindowId>, seen: set<WindowId>, now: int, id: WindowId)
    ensures var f := RefuseAll(e, ids, seen, now);
            && f.lastUsed == e.lastUsed && f.notAuthenticated == e.notAuthenticated && FailuresFor(f, id) == FailuresFor(e, id)
  {
    if ids != [] {
      RefuseAllFailures(e, ids[..|ids| - 1], seen, now, id);
      RefuseOneEffect(RefuseAll(e, ids[..|ids| - 1], seen, now), ids[|ids| - 1], seen, now, id, if id == Fable then 1 else 0);
    }
  }

  lemma {:induction false} RefuseAllParts(e: Entry, ids: seq<WindowId>, seen: set<WindowId>, now: int, id: WindowId)
    requires Distinct(ids)
    ensures PartOf(RefuseAll(e, ids, seen, now), id) ==
            if id in ids then RefusedPart(PartOf(e, id), FailuresFor(e, id), id in seen, id, now) else PartOf(e, id)
  {
    if ids != [] {
      var head, x := ids[..|ids| - 1], ids[|ids| - 1];
      assert ids == head + [x] && x !in head;
      RefuseAllParts(e, head, seen, now, id);
      RefuseAllFailures(e, head, seen, now, id);
      RefuseOneEffect(RefuseAll(e, head, seen, now), x, seen, now, id, 0);
    }
  }

  lemma {:induction false} RefuseAllLane(e: Entry, ids: seq<WindowId>, seen: set<WindowId>, now: int, lane: nat)
    requires lane < 2 && Distinct(ids)
    ensures RefuseAll(e, ids, seen, now).lanes.At(lane) ==
            if SomeWakes(e, ids, seen, now, lane) then e.lanes.At(lane).(next := 0) else e.lanes.At(lane)
  {
    if ids != [] {
      var head, x := ids[..|ids| - 1], ids[|ids| - 1];
      assert ids == head + [x] && x !in head;
      RefuseAllLane(e, head, seen, now, lane);
      RefuseAllParts(e, head, seen, now, x);
      RefuseAllFailures(e, head, seen, now, x);
      RefuseOneEffect(RefuseAll(e, head, seen, now), x, seen, now, x, lane);
      assert SomeWakes(e, ids, seen, now, lane) <==>
             SomeWakes(e, head, seen, now, lane) || ((x == Fable <==> lane == 1) && Wakes(PartOf(e, x), FailuresFor(e, x), x in seen, now));
    }
  }

  lemma RefusedAre(refusal: Refusal)
    ensures Distinct(RefusedIds(refusal)) && forall id :: id in RefusedIds(refusal) <==> Refused(refusal, id)
  {
    forall id ensures id in RefusedIds(refusal) <==> Refused(refusal, id) { match id { case Session => case Weekly => case Fable => } }
  }

  /** One window as the turn's reports leave it. */
  function ReportedPart(e: Entry, ws: seq<Window>, id: WindowId): Part {
    if LastOf(ws, id).Some?
    then Part(LastOf(ws, id), At(e.versions, id, 0) + Count(ws, id), false, None, At(e.invalidatedUntil, id, 0))
    else PartOf(e, id)
  }

  lemma PartAfterReports(e: Entry, ws: seq<Window>, now: int, id: WindowId)
    ensures var f := ObserveWindows(Touched(e, ws, now), ws);
            && PartOf(f, id) == ReportedPart(e, ws, id) && FailuresFor(f, id) == FailuresFor(e, id)
            && f.lastUsed == now && f.notAuthenticated == (e.notAuthenticated && ws == [])
  {
    TouchedPart(e, ws, now, id);
    ReportAllEffect(Touched(e, ws, now), ws, id, if id == Fable then 1 else 0);
  }

  /** What a turn leaves of one window: its last report, and then what a refusal of it makes of that. */
  lemma TurnLeaves(e: Entry, ws: seq<Window>, refusal: Refusal, now: int, id: WindowId)
    ensures var f := Observe(e, ws, refusal, now);
            && PartOf(f, id) ==
                 (if Refused(refusal, id) then RefusedPart(ReportedPart(e, ws, id), FailuresFor(e, id), LastOf(ws, id).Some?, id, now)
                  else ReportedPart(e, ws, id))
            && f.lastUsed == now && f.notAuthenticated == (e.notAuthenticated && ws == [])
  {
    var e1 := ObserveWindows(Touched(e, ws, now), ws);
    PartAfterReports(e, ws, now, id);
    SeenIsReported(ws, id);
    RefusedAre(refusal);
    RefuseAllParts(e1, RefusedIds(refusal), Seen(ws), now, id);
    RefuseAllFailures(e1, RefusedIds(refusal), Seen(ws), now, id);
  }

  lemma TouchedPart(e: Entry, ws: seq<Window>, now: int, id: WindowId)
    ensures var f := Touched(e, ws, now);
            && PartOf(f, id) == PartOf(e, id) && f.lanes == e.lanes
            && f.lastUsed == now && f.notAuthenticated == (e.notAuthenticated && ws == [])
  {
  }

  lemma {:induction false} SeenIsReported(ws: seq<Window>, id: WindowId)
    ensures id in Seen(ws) <==> LastOf(ws, id).Some?
  {
    if ws != [] {
      SeenIsReported(ws[..|ws| - 1], id);
      assert ws == ws[..|ws| - 1] + [ws[|ws| - 1]];
      assert Seen(ws) == Seen(ws[..|ws| - 1]) + {ws[|ws| - 1].id};
    }
  }

  /** When a lane is due after a turn: at once if a refusal of a window the turn did not report wakes it, else, unless the
      lane is failing, when its last reported window is to be read again. */
  lemma TurnTimesLane(e: Entry, ws: seq<Window>, refusal: Refusal, now: int, lane: nat)
    requires lane < 2
    ensures var f := Observe(e, ws, refusal, now);
            var was := e.lanes.At(lane);
            f.lanes.At(lane) ==
            if exists id :: && Refused(refusal, id) && (id == Fable <==> lane == 1) && LastOf(ws, id).None?
                            && id !in e.dirty && was.failures == 0 && now >= At(e.invalidatedUntil, id, 0)
            then was.(next := 0)
            else if LastFor(ws, lane).Some? && was.failures == 0 then was.(next := LastFor(ws, lane).value.refreshAt)
            else was
  {
    var e1 := ObserveWindows(Touched(e, ws, now), ws);
    ReportAllEffect(Touched(e, ws, now), ws, Session, lane);
    RefusedAre(refusal);
    RefuseAllLane(e1, RefusedIds(refusal), Seen(ws), now, lane);
    forall id | (id == Fable <==> lane == 1)
      ensures Wakes(PartOf(e1, id), FailuresFor(e1, id), id in Seen(ws), now) <==>
              LastOf(ws, id).None? && id !in e.dirty && e.lanes.At(lane).failures == 0 && now >= At(e.invalidatedUntil, id, 0)
    {
      WakesAfterReports(e, ws, now, id, lane);
    }
  }

  lemma WakesAfterReports(e: Entry, ws: seq<Window>, now: int, id: WindowId, lane: nat)
    requires lane < 2 && (id == Fable <==> lane == 1)
    ensures var e1 := ObserveWindows(Touched(e, ws, now), ws);
            Wakes(PartOf(e1, id), FailuresFor(e1, id), id in Seen(ws), now) <==>
              LastOf(ws, id).None? && id !in e.dirty && e.lanes.At(lane).failures == 0 && now >= At(e.invalidatedUntil, id, 0)
  {
    TouchedPart(e, ws, now, id);
    ReportAllEffect(Touched(e, ws, now), ws, id, lane);
    SeenIsReported(ws, id);
  }

  /******* When a lane is due *******/

  /** A lane is due exactly if no block that stops it still lies ahead, and its deadline has passed or was lifted by the
      end of a block of its own while it was not failing. Fable's block stops lane 1 alone, the others both. */
  lemma DueExactly(e: Entry, lane: nat, now: int)
    requires lane < 2 && now >= 0
    ensures Due(Expire(e, now), lane, now) <==>
              && (forall id :: id in e.blocked && (id != Fable || lane == 1) ==> e.blocked[id] <= now)
              && (now >= e.lanes.At(lane).next
                  || (e.lanes.At(lane).failures == 0
                      && exists id :: id in e.blocked && (id == Fable <==> lane == 1) && 0 != e.blocked[id] <= now))
  {
    ExpiryLifts(e, now, lane);
    var f := Expire(e, now);
    forall id ensures BlockOf(f, id) == if id in e.blocked && 0 != e.blocked[id] <= now then None else BlockOf(e, id) {
      ExpiryBlocks(e, now, id);
    }
  }

  /** An expiry drops exactly the blocks whose reset has come, and lifts the deadline of a lane that is not failing and had
      one of its own among them. */
  lemma ExpiryBlocks(e: Entry, now: int, id: WindowId)
    ensures BlockOf(Expire(e, now), id) == if id in e.blocked && 0 != e.blocked[id] <= now then None else BlockOf(e, id)
  {
  }

  lemma ExpiryLifts(e: Entry, now: int, lane: nat)
    requires lane < 2
    ensures Expire(e, now).lanes.At(lane) ==
            if e.lanes.At(lane).failures == 0 && exists id :: id in e.blocked && (id == Fable <==> lane == 1) && 0 != e.blocked[id] <= now
            then e.lanes.At(lane).(next := 0) else e.lanes.At(lane)
  {
    if exists id :: id in e.blocked && (id == Fable <==> lane == 1) && 0 != e.blocked[id] <= now {
      var id :| id in e.blocked && (id == Fable <==> lane == 1) && 0 != e.blocked[id] <= now;
      assert Expired(e, id, now) && LaneOf(id) == lane;
    }
  }
}
