/**
 The cache as its code keeps it: an entry object mutated in place under one lock, and the map that reaches it.
 Every method is proved against the function of the same critical section in QuotaEntry, so the run theorems in
 QuotaTheorems and QuotaCacheMachine speak about this code.
 */
module QuotaObjects {
  import opened Options
  import opened QuotaEntry
  import opened QuotaCacheMachine
  import QuotaMachine
  import Spec = QuotaEntry

  class EntryObject {
    var windows: map<WindowId, Window>
    var versions: map<WindowId, nat>
    var dirty: set<WindowId>
    var invalidatedUntil: map<WindowId, int>
    var blocked: map<WindowId, int>
    var lanes: Lanes
    var running: bool
    var lastUsed: int
    var notAuthenticated: bool
    ghost var log: seq<Event>

    ghost function Abs(): Spec.Entry
      reads this
    {
      Spec.Entry(windows, versions, dirty, invalidatedUntil, blocked, lanes, running, lastUsed, notAuthenticated, log)
    }

    constructor (now: int)
      ensures Abs() == Fresh(now)
    {
      windows, versions, dirty, invalidatedUntil, blocked := map[], map[], {}, map[], map[];
      lanes := Lanes(Lane(None, ZERO_TIME, 0), Lane(None, ZERO_TIME, 0));
      running, lastUsed, notAuthenticated, log := false, now, false, [];
    }

    /** Drops expired blocks, waking their lanes. */
    method ExpireBlocks(now: int)
      modifies `blocked, `lanes
      ensures Abs() == Expire(old(Abs()), now)
    {
      ghost var before := Abs();
      var rest := blocked.Keys;
      while rest != {}
        invariant rest <= before.blocked.Keys
        invariant blocked == map id | id in before.blocked && (id in rest || !Expired(before, id, now)) :: before.blocked[id]
        invariant forall lane :: 0 <= lane < 2 ==>
                    lanes.At(lane) ==
                    if before.lanes.At(lane).failures == 0
                       && exists id :: id !in rest && Expired(before, id, now) && LaneOf(id) == lane
                    then before.lanes.At(lane).(next := ZERO_TIME) else before.lanes.At(lane)
        decreases rest
      {
        var id :| id in rest;
        rest := rest - {id};
        var reset := blocked[id];
        if reset != ZERO_TIME && now >= reset {
          blocked := blocked - {id};
          var lane := LaneOf(id);
          if lanes.At(lane).failures == 0 {
            lanes := lanes.Set(lane, lanes.At(lane).(next := ZERO_TIME));
          }
          assert Expired(before, id, now);
        }
      }
      assert lanes.At(0) == Wake(before, 0, now) && lanes.At(1) == Wake(before, 1, now);
    }

    /** Expires blocks and reports which lanes may probe. */
    method DueLanes(now: int) returns (due: seq<bool>)
      modifies `blocked, `lanes
      ensures Abs() == Expire(old(Abs()), now)
      ensures |due| == 2 && due[0] == Due(Abs(), 0, now) && due[1] == Due(Abs(), 1, now)
    {
      ExpireBlocks(now);
      due := [true, true];
      for lane := 0 to 2
        invariant |due| == 2
        invariant forall l :: 0 <= l < lane ==> due[l] == Due(Abs(), l, now)
      {
        var stopped := exists id :: id in blocked.Keys && Stops(id, lane) && now < blocked[id];
        due := due[lane := !stopped && now >= lanes.At(lane).next];
      }
    }

    method FailLane(lane: nat, retryAfter: int, err: string, now: int)
      requires lane < 2
      modifies `lanes, `log
      ensures Abs() == FailProbe(old(Abs()), lane, retryAfter, err, now)
    {
      var failures := lanes.At(lane).failures + 1;
      var next := now + Backoff(failures);
      if retryAfter > next {
        next := retryAfter;
      }
      lanes := lanes.Set(lane, Lane(Some(err), next, failures));
      log := log + [Failed(lane, now, retryAfter)];
    }

    /** A not-authenticated answer empties the windows and parks both lanes at the same time. */
    method SignOut(lane: nat, next: int)
      requires lane < 2
      modifies `windows, `lanes, `log
      ensures Abs() == Spec.SignOut(old(Abs()), lane, next)
    {
      windows := map[];
      lanes := lanes.Set(1 - lane, lanes.At(1 - lane).(next := next, err := None));
      log := log + [Cleared(lane)];
    }

    method AcceptLane(lane: nat, answer: Answer, now: int)
      requires lane < 2
      modifies this
      ensures Abs() == AcceptProbe(old(Abs()), lane, answer, now)
    {
      var next := now + LaneTtl(lane, answer);
      if answer.retryAfter > next {
        next := answer.retryAfter;
      }
      lanes := lanes.Set(lane, Lane(None, next, 0));
      log := log + [Succeeded(lane)];
      notAuthenticated := answer.notAuthenticated;
      if answer.notAuthenticated {
        SignOut(lane, next);
      }
    }

    method ApplyProbe(lane: nat, answer: Answer, err: Option<string>, versions0: map<WindowId, nat>, now: int)
      requires lane < 2
      modifies this
      ensures Abs() == Spec.ApplyProbe(old(Abs()), lane, answer, err, versions0, now)
    {
      var nextBefore := lanes.At(lane).next;
      if err.Some? {
        FailLane(lane, answer.retryAfter, err.value, now);
        return;
      }
      AcceptLane(lane, answer, now);
      StoreAll(lane, answer.windows, answer.exhausted, versions0, nextBefore, now);
      if answer.retryAfter > lanes.At(lane).next {
        lanes := lanes.Set(lane, lanes.At(lane).(next := answer.retryAfter));
      }
    }

    method StoreAll(lane: nat, ws: seq<Window>, exhausted: Option<WindowId>, versions0: map<WindowId, nat>, nextBefore: int, now: int)
      requires lane < 2
      modifies this
      ensures Abs() == StoreWindows(old(Abs()), lane, ws, exhausted, versions0, nextBefore, now)
    {
      ghost var before := Abs();
      for i := 0 to |ws|
        invariant Abs() == StoreWindows(before, lane, ws[..i], exhausted, versions0, nextBefore, now)
      {
        assert ws[..i + 1][..i] == ws[..i];
        StoreOne(lane, ws[i], exhausted, versions0, nextBefore, now);
      }
      assert ws[..|ws|] == ws;
    }

    method StoreOne(lane: nat, w: Window, exhausted: Option<WindowId>, versions0: map<WindowId, nat>, nextBefore: int, now: int)
      requires lane < 2
      modifies this
      ensures Abs() == StoreWindow(old(Abs()), lane, w, exhausted, versions0, nextBefore, now)
    {
      if lane == 0 && w.id == Fable {
        return;
      }
      if Spec.At(versions, w.id, 0) != Spec.At(versions0, w.id, 0) {
        if w.id in dirty {
          lanes := lanes.Set(lane, lanes.At(lane).(next := nextBefore));
        }
        return;
      }
      Keep(w, exhausted, now);
      if LaneOf(w.id) == lane && now < w.refreshAt < lanes.At(lane).next {
        lanes := lanes.Set(lane, lanes.At(lane).(next := w.refreshAt));
      }
    }

    method Keep(w: Window, exhausted: Option<WindowId>, now: int)
      modifies `windows, `dirty, `blocked, `log
      ensures Abs() == PutWindow(old(Abs()), w, exhausted, now)
    {
      windows := windows[w.id := w];
      dirty := dirty - {w.id};
      blocked := blocked - {w.id};
      if exhausted == Some(w.id) && w.resetsAt > now {
        blocked := blocked[w.id := w.resetsAt];
      }
      log := log + [Stored(w)];
    }

    method Observe(reported: seq<Window>, refusal: Refusal, now: int)
      modifies this
      ensures Abs() == Spec.Observe(old(Abs()), reported, refusal, now)
    {
      lastUsed := now;
      if |reported| > 0 {
        notAuthenticated := false;
      }
      var seen := ReportWindows(reported);
      RefuseIds(RefusedIds(refusal), seen, now);
    }

    method ReportWindows(reported: seq<Window>) returns (seen: set<WindowId>)
      modifies this
      ensures Abs() == ObserveWindows(old(Abs()), reported) && seen == Seen(reported)
    {
      ghost var before := Abs();
      seen := {};
      for i := 0 to |reported|
        invariant Abs() == ObserveWindows(before, reported[..i])
        invariant seen == Seen(reported[..i])
      {
        assert reported[..i + 1][..i] == reported[..i];
        assert reported[..i + 1] == reported[..i] + [reported[i]];
        ReportOne(reported[i]);
        seen := seen + {reported[i].id};
      }
      assert reported[..|reported|] == reported;
    }

    method RefuseIds(ids: seq<WindowId>, seen: set<WindowId>, now: int)
      modifies this
      ensures Abs() == RefuseAll(old(Abs()), ids, seen, now)
    {
      ghost var before := Abs();
      for i := 0 to |ids|
        invariant Abs() == RefuseAll(before, ids[..i], seen, now)
      {
        assert ids[..i + 1][..i] == ids[..i];
        RefuseOne(ids[i], seen, now);
      }
      assert ids[..|ids|] == ids;
    }

    method ReportOne(w: Window)
      modifies this
      ensures Abs() == ObserveWindow(old(Abs()), w)
    {
      windows := windows[w.id := w];
      versions := versions[w.id := Spec.At(versions, w.id, 0) + 1];
      dirty := dirty - {w.id};
      var lane := LaneOf(w.id);
      if lanes.At(lane).failures == 0 {
        lanes := lanes.Set(lane, lanes.At(lane).(next := w.refreshAt));
      }
      blocked := blocked - {w.id};
      log := log + [Reported(w)];
    }

    method RefuseOne(id: WindowId, seen: set<WindowId>, now: int)
      modifies this
      ensures Abs() == Refuse(old(Abs()), id, seen, now)
    {
      if id in seen {
        if id in windows && windows[id].resetsAt > now {
          blocked := blocked[id := windows[id].resetsAt];
        }
        return;
      }
      if id in dirty {
        return;
      }
      Invalidate(id, now);
      WakeOnce(id, now);
    }

    method Invalidate(id: WindowId, now: int)
      modifies `dirty, `versions, `windows, `log
      ensures Abs() == MarkDirty(old(Abs()), id, now)
    {
      dirty := dirty + {id};
      versions := versions[id := Spec.At(versions, id, 0) + 1];
      if id in windows {
        windows := windows[id := windows[id].(refreshAt := now)];
      }
      log := log + [Invalidated(id)];
    }

    method WakeOnce(id: WindowId, now: int)
      modifies `lanes, `invalidatedUntil, `log
      ensures Abs() == WakeLane(old(Abs()), id, now)
    {
      var lane := LaneOf(id);
      if lanes.At(lane).failures == 0 && now >= Spec.At(invalidatedUntil, id, ZERO_TIME) {
        lanes := lanes.Set(lane, lanes.At(lane).(next := ZERO_TIME));
        invalidatedUntil := invalidatedUntil[id := now + Ttl(id)];
        log := log + [Woke(id, now)];
      }
    }

    /** The versions a probe is judged against, and whether its lane is still due. */
    method SnapshotVersions(lane: nat, now: int) returns (versions0: map<WindowId, nat>, stillDue: bool)
      requires lane < 2
      modifies this
      ensures versions0 == QuotaMachine.Snapshot(old(Abs())) && stillDue == Due(Expire(old(Abs()), now), lane, now)
      ensures Abs() == if stillDue then Note(Expire(old(Abs()), now), Snapped(lane)) else Expire(old(Abs()), now)
    {
      versions0 := map[
        Session := Spec.At(versions, Session, 0),
        Weekly := Spec.At(versions, Weekly, 0),
        Fable := Spec.At(versions, Fable, 0)];
      var due := DueLanes(now);
      stillDue := due[lane];
      if stillDue {
        log := log + [Snapped(lane)];
      }
    }

    /** The windows in id order, and the lanes' errors when there is none to show. */
    method Snapshot() returns (result: seq<Window>, signedOut: bool, errors: seq<string>)
      ensures forall w :: w in result <==> w in windows.Values
      ensures |result| == |windows| && IdSorted(result)
      ensures (forall id :: id in windows ==> windows[id].id == id) ==> IdDistinct(result)
      ensures forall i, j :: 0 <= i < j < |result| ==>
                (result[j].id == Session ==> result[i].id == Session) && (result[i].id == Fable ==> result[j].id == Fable)
      ensures signedOut == notAuthenticated
      ensures windows != map[] ==> errors == []
      ensures windows == map[] ==>
                errors == (if lanes.haiku.err.Some? then [lanes.haiku.err.value] else [])
                          + (if lanes.fable.err.Some? then [lanes.fable.err.value] else [])
    {
      result := [];
      var rest := windows.Keys;
      while rest != {}
        invariant rest <= windows.Keys
        invariant forall w :: w in result <==> exists id :: id in windows && id !in rest && windows[id] == w
        invariant |result| + |rest| == |windows| && IdSorted(result)
        invariant (forall id :: id in windows ==> windows[id].id == id) ==> IdDistinct(result)
        decreases rest
      {
        var id :| id in rest;
        rest := rest - {id};
        ghost var before := result;
        InsertSorted(result, windows[id]);
        if forall k :: k in windows ==> windows[k].id == k { InsertDistinct(result, windows[id]); }
        result := InsertById(result, windows[id]);
        forall w ensures w in result <==> exists x :: x in windows && x !in rest && windows[x] == w {
          if w in before {
            var x :| x in windows && x !in rest + {id} && windows[x] == w;
          }
        }
      }
      signedOut := notAuthenticated;
      errors := [];
      if |result| == 0 {
        assert windows.Keys == {};
        errors := Joined(lanes);
      } else {
        assert result[0] in result;
        var id :| id in windows && windows[id] == result[0];
      }
    }
  }

  /** Alphabetical rank of the id: session, weekly_all, weekly_scoped/Fable. */
  function Rank(id: WindowId): nat {
    match id
    case Session => 0
    case Weekly => 1
    case Fable => 2
  }

  function Joined(lanes: Lanes): seq<string> {
    (if lanes.haiku.err.Some? then [lanes.haiku.err.value] else [])
    + (if lanes.fable.err.Some? then [lanes.fable.err.value] else [])
  }

  ghost predicate IdSorted(ws: seq<Window>) {
    forall i, j :: 0 <= i < j < |ws| ==> Rank(ws[i].id) <= Rank(ws[j].id)
  }

  ghost predicate IdDistinct(ws: seq<Window>) {
    forall i, j :: 0 <= i < j < |ws| ==> ws[i].id != ws[j].id
  }

  function InsertById(ws: seq<Window>, w: Window): seq<Window> {
    if ws == [] || Rank(w.id) <= Rank(ws[0].id) then [w] + ws else [ws[0]] + InsertById(ws[1..], w)
  }

  lemma {:induction false} InsertSorted(ws: seq<Window>, w: Window)
    requires IdSorted(ws)
    ensures IdSorted(InsertById(ws, w))
    ensures |InsertById(ws, w)| == |ws| + 1 && forall v :: v in InsertById(ws, w) <==> v == w || v in ws
  {
    if ws != [] && Rank(w.id) > Rank(ws[0].id) {
      InsertSorted(ws[1..], w);
      assert ws == [ws[0]] + ws[1..];
      var r := InsertById(ws, w);
      assert r[1..] == InsertById(ws[1..], w);
      forall v | v in r[1..] ensures Rank(ws[0].id) <= Rank(v.id) {
        assert v == w || v in ws[1..];
      }
      forall i, j | 0 <= i < j < |r| ensures Rank(r[i].id) <= Rank(r[j].id) {
        assert r[j] == r[1..][j - 1];
        if i > 0 { assert r[i] == r[1..][i - 1]; }
      }
    }
  }

  lemma {:induction false} InsertDistinct(ws: seq<Window>, w: Window)
    requires IdDistinct(ws) && forall v :: v in ws ==> v.id != w.id
    ensures IdDistinct(InsertById(ws, w))
    ensures forall v :: v in InsertById(ws, w) ==> v == w || v in ws
  {
    if ws != [] && Rank(w.id) > Rank(ws[0].id) {
      InsertDistinct(ws[1..], w);
      var r := InsertById(ws, w);
      assert r[1..] == InsertById(ws[1..], w);
      forall i, j | 0 <= i < j < |r| ensures r[i].id != r[j].id {
        assert r[j] == r[1..][j - 1] && r[j] in r[1..];
        if i > 0 { assert r[i] == r[1..][i - 1]; }
      }
    }
  }

  /** The map from account to entry. Entries are owned by the cache, one object per key. */
  class CacheObject {
    var entries: map<Key, EntryObject>

    constructor ()
      ensures entries == map[]
    {
      entries := map[];
    }

    predicate CanEvict(e: EntryObject, now: int)
      reads e
    {
      !e.running && now - e.lastUsed > EVICT_AFTER
    }

    /** Finds or makes the key's entry; making one drops every idle entry that is not refreshing. */
    method EntryFor(key: Key, now: int) returns (e: EntryObject)
      modifies this, if key in entries then {entries[key]} else {}
      ensures key in entries && entries[key] == e
      ensures key in old(entries) ==> entries == old(entries) && e.Abs() == old(entries[key].Abs()).(lastUsed := now)
      ensures key !in old(entries) ==> fresh(e) && e.Abs() == Fresh(now)
      ensures key !in old(entries) ==>
                forall k :: k in entries && k != key <==>
                            k in old(entries) && (old(entries[k].running) || now - old(entries[k].lastUsed) <= 21600)
      ensures forall k :: k in entries && k != key ==> k in old(entries) && entries[k] == old(entries)[k]
    {
      if key in entries {
        e := entries[key];
        e.lastUsed := now;
      } else {
        var rest := entries.Keys;
        while rest != {}
          invariant rest <= old(entries).Keys
          invariant forall k :: k in entries <==> k in old(entries) && (k in rest || !old(CanEvict(entries[k], now)))
          invariant forall k :: k in entries ==> entries[k] == old(entries)[k]
          decreases rest
        {
          var k :| k in rest;
          rest := rest - {k};
          if CanEvict(entries[k], now) {
            entries := entries - {k};
          }
        }
        e := new EntryObject(now);
        entries := entries[key := e];
      }
    }

    /** Read up to its first unlock: join a running refresh, start one, or answer from the cache. */
    method BeginRead(key: Key, now: int) returns (e: EntryObject, joined: bool, due: seq<bool>)
      modifies this, entries.Values
      ensures key in entries && entries[key] == e
      ensures key in old(entries) ==> entries == old(entries)
      ensures key !in old(entries) ==>
                forall k :: k in entries && k != key <==> k in old(entries) && !old(CanEvict(entries[k], now))
      ensures forall k :: k in entries && k != key ==> k in old(entries) && entries[k] == old(entries)[k]
      ensures forall k :: k in old(entries) && old(entries)[k] != e ==> old(entries)[k].Abs() == old(entries[k].Abs())
      ensures var found := if key in old(entries) then old(entries[key].Abs()).(lastUsed := now) else Fresh(now);
              && joined == found.running
              && |due| == 2
              && e.Abs() == (if joined then found
                             else Expire(found, now).(running := due[0] || due[1]))
              && (!joined ==> due[0] == Due(Expire(found, now), 0, now) && due[1] == Due(Expire(found, now), 1, now))
    {
      e := EntryFor(key, now);
      joined := e.running;
      due := [false, false];
      if !joined {
        due := e.DueLanes(now);
        if due[0] || due[1] {
          e.running := true;
        }
      }
    }

    method ObserveTurn(key: Key, reported: seq<Window>, refusal: Refusal, now: int)
      modifies this, entries.Values
      ensures key in entries
      ensures key in old(entries) ==> entries == old(entries)
      ensures key !in old(entries) ==>
                forall k :: k in entries && k != key <==> k in old(entries) && !old(CanEvict(entries[k], now))
      ensures forall k :: k in entries && k != key ==> k in old(entries) && entries[k] == old(entries)[k]
      ensures forall k :: k in old(entries) && old(entries)[k] != entries[key] ==> old(entries)[k].Abs() == old(entries[k].Abs())
      ensures entries[key].Abs() ==
              Spec.Observe(if key in old(entries) then old(entries[key].Abs()) else Fresh(now), reported, refusal, now)
    {
      var e := EntryFor(key, now);
      e.Observe(reported, refusal, now);
    }
  }
}
