/**
 The cache entry of one account (internal/claude/quota_cache.go): observed allowance windows, the two probe
 lanes, and the version counters that decide whether a probe's answer is still fresh when it arrives.

 Times are integers; 0 is Go's zero time and the clock never shows less. `log` is history: the entry's code
 never reads it, and every claim about "the last report" or "since the snapshot" is a function of it.
 */
module QuotaEntry {
  import opened Options

  const ZERO_TIME := 0
  const MINUTE := 60
  const HAIKU_TTL := 5 * MINUTE
  const FABLE_TTL := 30 * MINUTE
  const NEGATIVE_TTL := 360 * MINUTE

  datatype WindowId = Session | Weekly | Fable

  /** What a native refusal names: nothing, an unclassified window, or one window. */
  datatype Refusal = NoRefusal | Unclassified | Exhausted(id: WindowId)

  datatype Window = Window(id: WindowId, percent: real, observedAt: int, refreshAt: int, resetsAt: int)

  datatype Answer = Answer(
    exhausted: Option<WindowId>,
    windows: seq<Window>,
    unavailable: bool,
    notAuthenticated: bool,
    retryAfter: int)

  datatype Lane = Lane(err: Option<string>, next: int, failures: nat)

  datatype Event =
    | Reported(reported: Window)                    // a turn observation stored this window
    | Invalidated(invalid: WindowId)                // the first refusal that marked a window dirty
    | Woke(woken: WindowId, wokenAt: int)           // a refusal cleared its lane's deadline
    | Snapped(snapLane: nat)                        // an admitted probe took its version snapshot
    | Stored(stored: Window)                        // the answer of that probe stored this window
    | Cleared(clearLane: nat)                       // a not-authenticated answer emptied the windows
    | Failed(failLane: nat, failedAt: int, retryAfter: int)
    | Succeeded(okLane: nat)

  datatype Lanes = Lanes(haiku: Lane, fable: Lane) {
    function At(lane: nat): Lane { if lane == 1 then fable else haiku }
    function Set(lane: nat, state: Lane): Lanes { if lane == 1 then this.(fable := state) else this.(haiku := state) }
  }

  datatype Entry = Entry(
    windows: map<WindowId, Window>,
    versions: map<WindowId, nat>,
    dirty: set<WindowId>,
    invalidatedUntil: map<WindowId, int>,
    blocked: map<WindowId, int>,
    lanes: Lanes,
    running: bool,
    lastUsed: int,
    notAuthenticated: bool,
    log: seq<Event>)

  function Fresh(now: int): Entry {
    Entry(map[], map[], {}, map[], map[], Lanes(Lane(None, ZERO_TIME, 0), Lane(None, ZERO_TIME, 0)), false, now, false, [])
  }

  /** A Go map read: a missing key reads as zero. */
  function At<K, V>(m: map<K, V>, k: K, zero: V): V {
    if k in m then m[k] else zero
  }

  function Version(e: Entry, id: WindowId): nat {
    At(e.versions, id, 0)
  }

  function Ttl(id: WindowId): int {
    if id == Fable then FABLE_TTL else HAIKU_TTL
  }

  function LaneOf(id: WindowId): nat {
    if id == Fable then 1 else 0
  }

  /** An exhausted window stops the lane: Fable only its own, the account-wide windows both. */
  predicate Stops(id: WindowId, lane: nat) {
    id != Fable || lane == 1
  }

  function Backoff(failures: nat): int {
    if failures <= 1 then 5 * MINUTE else if failures == 2 then 15 * MINUTE else 60 * MINUTE
  }

  function Max(a: int, b: int): int {
    if b > a then b else a
  }

  function SetNext(e: Entry, lane: nat, next: int): Entry
    requires lane < 2
  {
    e.(lanes := e.lanes.Set(lane, e.lanes.At(lane).(next := next)))
  }

  function Note(e: Entry, event: Event): Entry {
    e.(log := e.log + [event])
  }

  /******* due *******/

  predicate Expired(e: Entry, id: WindowId, now: int) {
    id in e.blocked && e.blocked[id] != ZERO_TIME && now >= e.blocked[id]
  }

  function Wake(e: Entry, lane: nat, now: int): Lane
    requires lane < 2
  {
    if e.lanes.At(lane).failures == 0 && exists id :: Expired(e, id, now) && LaneOf(id) == lane
    then e.lanes.At(lane).(next := ZERO_TIME)
    else e.lanes.At(lane)
  }

  function Expire(e: Entry, now: int): Entry {
    e.(blocked := map id | id in e.blocked && !Expired(e, id, now) :: e.blocked[id],
       lanes := Lanes(Wake(e, 0, now), Wake(e, 1, now)))
  }

  predicate Due(e: Entry, lane: nat, now: int)
    requires lane < 2
  {
    && now >= e.lanes.At(lane).next
    && forall id :: id in e.blocked && Stops(id, lane) ==> now >= e.blocked[id]
  }

  /******* applyProbe *******/

  function FailProbe(e: Entry, lane: nat, retryAfter: int, err: string, now: int): Entry
    requires lane < 2
  {
    var failures := e.lanes.At(lane).failures + 1;
    Note(e.(lanes := e.lanes.Set(lane, Lane(Some(err), Max(now + Backoff(failures), retryAfter), failures))),
         Failed(lane, now, retryAfter))
  }

  function LaneTtl(lane: nat, answer: Answer): int {
    if answer.unavailable || answer.notAuthenticated then NEGATIVE_TTL
    else if lane == 1 then FABLE_TTL
    else HAIKU_TTL
  }

  function Succeed(e: Entry, lane: nat, next: int, signedOut: bool): Entry
    requires lane < 2
  {
    Note(e.(notAuthenticated := signedOut, lanes := e.lanes.Set(lane, Lane(None, next, 0))), Succeeded(lane))
  }

  function AcceptProbe(e: Entry, lane: nat, answer: Answer, now: int): Entry
    requires lane < 2
  {
    var next := Max(now + LaneTtl(lane, answer), answer.retryAfter);
    var e' := Succeed(e, lane, next, answer.notAuthenticated);
    if answer.notAuthenticated then SignOut(e', lane, next) else e'
  }

  /** A not-authenticated answer empties the windows and parks both lanes. */
  function SignOut(e: Entry, lane: nat, next: int): Entry
    requires lane < 2
  {
    Note(e.(windows := map[], lanes := e.lanes.Set(1 - lane, e.lanes.At(1 - lane).(next := next, err := None))), Cleared(lane))
  }

  predicate IsStale(e: Entry, id: WindowId, versions: map<WindowId, nat>) {
    Version(e, id) != At(versions, id, 0)
  }

  function PutWindow(e: Entry, w: Window, exhausted: Option<WindowId>, now: int): Entry {
    var unblocked := e.blocked - {w.id};
    Note(e.(
      windows := e.windows[w.id := w],
      dirty := e.dirty - {w.id},
      blocked := if exhausted == Some(w.id) && w.resetsAt > now then unblocked[w.id := w.resetsAt] else unblocked),
      Stored(w))
  }

  function StoreWindow(e: Entry, lane: nat, w: Window, exhausted: Option<WindowId>,
                       versions: map<WindowId, nat>, nextBefore: int, now: int): Entry
    requires lane < 2
  {
    if lane == 0 && w.id == Fable then e
    else if IsStale(e, w.id, versions) then
      if w.id in e.dirty then SetNext(e, lane, nextBefore) else e
    else if LaneOf(w.id) == lane && now < w.refreshAt < e.lanes.At(lane).next then
      SetNext(PutWindow(e, w, exhausted, now), lane, w.refreshAt)
    else
      PutWindow(e, w, exhausted, now)
  }

  function StoreWindows(e: Entry, lane: nat, ws: seq<Window>, exhausted: Option<WindowId>,
                        versions: map<WindowId, nat>, nextBefore: int, now: int): Entry
    requires lane < 2
  {
    if ws == [] then e
    else StoreWindow(StoreWindows(e, lane, ws[..|ws| - 1], exhausted, versions, nextBefore, now),
                     lane, ws[|ws| - 1], exhausted, versions, nextBefore, now)
  }

  function ApplyProbe(e: Entry, lane: nat, answer: Answer, err: Option<string>,
                      versions: map<WindowId, nat>, now: int): Entry
    requires lane < 2
  {
    if err.Some? then FailProbe(e, lane, answer.retryAfter, err.value, now)
    else
      var stored := StoreWindows(AcceptProbe(e, lane, answer, now), lane, answer.windows, answer.exhausted,
                                 versions, e.lanes.At(lane).next, now);
      SetNext(stored, lane, Max(stored.lanes.At(lane).next, answer.retryAfter))
  }

  /******* Observe *******/

  function ReportWindow(e: Entry, w: Window): Entry {
    Note(e.(
      windows := e.windows[w.id := w],
      versions := e.versions[w.id := Version(e, w.id) + 1],
      dirty := e.dirty - {w.id},
      blocked := e.blocked - {w.id}),
      Reported(w))
  }

  function ObserveWindow(e: Entry, w: Window): Entry {
    var lane := LaneOf(w.id);
    if e.lanes.At(lane).failures == 0 then SetNext(ReportWindow(e, w), lane, w.refreshAt) else ReportWindow(e, w)
  }

  function ObserveWindows(e: Entry, ws: seq<Window>): Entry {
    if ws == [] then e else ObserveWindow(ObserveWindows(e, ws[..|ws| - 1]), ws[|ws| - 1])
  }

  function Seen(ws: seq<Window>): set<WindowId> {
    set w | w in ws :: w.id
  }

  function MarkDirty(e: Entry, id: WindowId, now: int): Entry {
    Note(e.(
      dirty := e.dirty + {id},
      versions := e.versions[id := Version(e, id) + 1],
      windows := if id in e.windows then e.windows[id := e.windows[id].(refreshAt := now)] else e.windows),
      Invalidated(id))
  }

  /** A refusal lets its lane probe at once, but at most once per time to live and never past a failure. */
  function WakeLane(e: Entry, id: WindowId, now: int): Entry {
    if e.lanes.At(LaneOf(id)).failures == 0 && now >= At(e.invalidatedUntil, id, ZERO_TIME)
    then Note(SetNext(e, LaneOf(id), ZERO_TIME).(invalidatedUntil := e.invalidatedUntil[id := now + Ttl(id)]), Woke(id, now))
    else e
  }

  function Refuse(e: Entry, id: WindowId, seen: set<WindowId>, now: int): Entry {
    if id in seen then
      if id in e.windows && e.windows[id].resetsAt > now
      then e.(blocked := e.blocked[id := e.windows[id].resetsAt]) else e
    else if id in e.dirty then e
    else WakeLane(MarkDirty(e, id, now), id, now)
  }

  function RefusedIds(refusal: Refusal): seq<WindowId> {
    match refusal
    case NoRefusal => []
    case Unclassified => [Session, Weekly, Fable]
    case Exhausted(id) => [id]
  }

  function RefuseAll(e: Entry, ids: seq<WindowId>, seen: set<WindowId>, now: int): Entry {
    if ids == [] then e else Refuse(RefuseAll(e, ids[..|ids| - 1], seen, now), ids[|ids| - 1], seen, now)
  }

  function Observe(e: Entry, ws: seq<Window>, refusal: Refusal, now: int): Entry {
    var e0 := e.(lastUsed := now, notAuthenticated := e.notAuthenticated && ws == []);
    RefuseAll(ObserveWindows(e0, ws), RefusedIds(refusal), Seen(ws), now)
  }

  /******* The log, read backwards *******/

  predicate Bumps(event: Event, id: WindowId) {
    (event.Reported? && event.reported.id == id) || (event.Invalidated? && event.invalid == id)
  }

  /** How often the window's version moved since the last probe snapshot. */
  function MovedSinceSnap(log: seq<Event>, id: WindowId): nat {
    if log == [] then 0
    else
      var last := log[|log| - 1];
      if last.Snapped? then 0
      else MovedSinceSnap(log[..|log| - 1], id) + (if Bumps(last, id) then 1 else 0)
  }

  /** The reading a replay of the log leaves for the window. */
  function Reading(log: seq<Event>, id: WindowId): Option<Window> {
    if log == [] then None
    else
      var last := log[|log| - 1];
      if last.Cleared? then None
      else if last.Reported? && last.reported.id == id then Some(last.reported)
      else if last.Stored? && last.stored.id == id then Some(last.stored)
      else Reading(log[..|log| - 1], id)
  }

  /** Every stored answer was unmoved: nothing reported or first-invalidated its window since the snapshot. */
  predicate StoresUnmoved(log: seq<Event>) {
    log == [] ||
    (var before, last := log[..|log| - 1], log[|log| - 1];
     StoresUnmoved(before) && (last.Stored? ==> MovedSinceSnap(before, last.stored.id) == 0))
  }

  /** The unbroken run of failures the lane's log ends in. */
  function FailuresInARow(log: seq<Event>, lane: nat): nat {
    if log == [] then 0
    else
      var last := log[|log| - 1];
      if last.Failed? && last.failLane == lane then 1 + FailuresInARow(log[..|log| - 1], lane)
      else if last.Succeeded? && last.okLane == lane then 0
      else FailuresInARow(log[..|log| - 1], lane)
  }

  function LastFailure(log: seq<Event>, lane: nat): Option<Event>
    ensures LastFailure(log, lane).Some? ==> LastFailure(log, lane).value.Failed?
  {
    if log == [] then None
    else
      var last := log[|log| - 1];
      if last.Failed? && last.failLane == lane then Some(last) else LastFailure(log[..|log| - 1], lane)
  }

  /** The provider's retry time the lane still owes: that of its last failure, unless the account was since
      found not authenticated. */
  function OwedRetry(log: seq<Event>, lane: nat): int {
    if log == [] then ZERO_TIME
    else
      var last := log[|log| - 1];
      if last.Failed? && last.failLane == lane then last.retryAfter
      else if last.Cleared? then ZERO_TIME
      else OwedRetry(log[..|log| - 1], lane)
  }

  function LastWake(log: seq<Event>, id: WindowId): Option<int> {
    if log == [] then None
    else
      var last := log[|log| - 1];
      if last.Woke? && last.woken == id then Some(last.wokenAt) else LastWake(log[..|log| - 1], id)
  }

  /** Wake-ups of one window are at least its time to live apart. */
  predicate WakesSpaced(log: seq<Event>) {
    log == [] ||
    (var before, last := log[..|log| - 1], log[|log| - 1];
     WakesSpaced(before) &&
     (last.Woke? ==> match LastWake(before, last.woken)
                     case None => true
                     case Some(at) => last.wokenAt >= at + Ttl(last.woken)))
  }
}
