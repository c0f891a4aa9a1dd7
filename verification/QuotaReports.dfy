/**
 What a turn can report to the cache (internal/claude/quota.go): one rate-limit event's windows and refusal. The
 windows of an event sit in a Go map, so their order is arbitrary; what the cache keeps does not depend on it.
 */
module QuotaReports {
  import opened Options
  import opened QuotaEntry
  import opened QuotaTheorems

  /** A utilization as decoded: not a number one can show, or a fraction. */
  datatype Utilization = NotFinite | Fraction(value: real)

  datatype Name = FiveHour | SevenDay | SevenDayFable | OtherName(text: string)

  datatype Reading = Reading(utilization: Option<Utilization>, resetsAt: int)

  datatype Info = Info(rejected: bool, name: Name, direct: Reading, windows: map<Name, Reading>)

  function EventId(name: Name, fable: bool): Option<WindowId> {
    match name
    case FiveHour => Some(Session)
    case SevenDay => Some(Weekly)
    case SevenDayFable => if fable then Some(Fable) else None
    case OtherName(_) => None
  }

  /** The earlier of the time to live and the reset, where there is one. */
  function RefreshTime(id: WindowId, reset: int, now: int): int {
    if reset > 0 && reset < now + Ttl(id) then reset else now + Ttl(id)
  }

  /** What a reading says of its window, or nothing. */
  function WindowOf(id: WindowId, r: Reading, now: int): Option<Window> {
    if r.utilization.None? || r.utilization.value.NotFinite? || r.utilization.value.value < 0.0 then None
    else Some(Window(id, r.utilization.value.value * 100.0, now, RefreshTime(id, r.resetsAt, now),
                     if r.resetsAt > 0 then r.resetsAt else ZERO_TIME))
  }

  /** A reading shows a window exactly when it has a finite utilization that is not negative; the window is refreshed
      no later than its time to live, nor than its reset where it names one, and at one of the two. */
  lemma WindowRefreshes(id: WindowId, r: Reading, now: int)
    ensures WindowOf(id, r, now).Some? <==>
            r.utilization.Some? && r.utilization.value.Fraction? && r.utilization.value.value >= 0.0
    ensures match WindowOf(id, r, now)
            case None => true
            case Some(w) =>
              && w.id == id && w.observedAt == now && w.percent == 100.0 * r.utilization.value.value
              && w.refreshAt <= now + Ttl(id) && (r.resetsAt > 0 ==> w.resetsAt == r.resetsAt && w.refreshAt <= w.resetsAt)
              && (w.refreshAt == now + Ttl(id) || (r.resetsAt > 0 && w.refreshAt == w.resetsAt))
              && (r.resetsAt <= 0 ==> w.resetsAt == ZERO_TIME && w.refreshAt > now)
  {
  }

  method QuotaWindow(id: WindowId, utilization: Utilization, reset: int, now: int) returns (w: Option<Window>)
    ensures w == WindowOf(id, Reading(Some(utilization), reset), now)
  {
    if utilization.NotFinite? || utilization.value < 0.0 {
      return None;
    }
    var window := Window(id, utilization.value * 100.0, now, now + Ttl(id), ZERO_TIME);
    if reset > 0 {
      window := window.(resetsAt := reset);
      if window.resetsAt < window.refreshAt {
        window := window.(refreshAt := window.resetsAt);
      }
    }
    w := Some(window);
  }

  /** The name an id is reported under. */
  function NameOf(id: WindowId): Name {
    match id
    case Session => FiveHour
    case Weekly => SevenDay
    case Fable => SevenDayFable
  }

  /** The event's window of an id among the named ones. */
  function Named(windows: map<Name, Reading>, fable: bool, now: int, id: WindowId): Option<Window> {
    if NameOf(id) in windows && EventId(NameOf(id), fable).Some? then WindowOf(id, windows[NameOf(id)], now) else None
  }

  /** What the event finally reports of an id: the direct reading, or else the named one. */
  function Reported(info: Info, fable: bool, now: int, id: WindowId): Option<Window> {
    if EventId(info.name, fable) == Some(id) && WindowOf(id, info.direct, now).Some? then WindowOf(id, info.direct, now)
    else Named(info.windows, fable, now, id)
  }

  predicate Shows(r: Reading) {
    r.utilization.Some? && r.utilization.value.Fraction? && r.utilization.value.value >= 0.0
  }

  /** The name a window goes by in an event. */
  function Called(id: WindowId): Name {
    match id
    case Session => FiveHour
    case Weekly => SevenDay
    case Fable => SevenDayFable
  }

  /** An event reports a window exactly if it is named directly or in its map by a reading that shows one, the direct
      reading first; Fable's only for a Fable model, and no window by another name. */
  lemma ReportsExactly(info: Info, fable: bool, now: int, id: WindowId)
    ensures var known := id != Fable || fable;
            && (Reported(info, fable, now, id).Some? <==>
                  known && ((info.name == Called(id) && Shows(info.direct))
                            || (Called(id) in info.windows && Shows(info.windows[Called(id)]))))
            && (known && info.name == Called(id) && Shows(info.direct) ==>
                  Reported(info, fable, now, id) == WindowOf(id, info.direct, now))
            && (known && !(info.name == Called(id) && Shows(info.direct)) && Called(id) in info.windows ==>
                  Reported(info, fable, now, id) == WindowOf(id, info.windows[Called(id)], now))
  {
  }

  lemma LastAppended(ws: seq<Window>, w: Window, id: WindowId)
    ensures LastOf(ws + [w], id) == if w.id == id then Some(w) else LastOf(ws, id)
  {
  }

  /** In whatever order the map is walked, the last window of each id is the one the event reports; a refusal names its
      window, or none it knows. */
  method QuotaEvent(info: Info, fable: bool, now: int) returns (windows: seq<Window>, refusal: Refusal)
    ensures forall id :: LastOf(windows, id) == Reported(info, fable, now, id)
    ensures refusal == if !info.rejected then NoRefusal
                       else if info.name.FiveHour? then Exhausted(Session)
                       else if info.name.SevenDay? then Exhausted(Weekly)
                       else if info.name.SevenDayFable? && fable then Exhausted(Fable)
                       else Unclassified
  {
    windows := [];
    var rest := info.windows.Keys;
    while rest != {}
      invariant rest <= info.windows.Keys
      invariant forall id :: LastOf(windows, id) == if NameOf(id) in rest then None else Named(info.windows, fable, now, id)
      decreases rest
    {
      var name :| name in rest;
      rest := rest - {name};
      var id := EventId(name, fable);
      var reading := info.windows[name];
      if id.Some? && reading.utilization.Some? {
        var w := QuotaWindow(id.value, reading.utilization.value, reading.resetsAt, now);
        if w.Some? {
          forall x ensures LastOf(windows + [w.value], x) == if w.value.id == x then w else LastOf(windows, x) {
            LastAppended(windows, w.value, x);
          }
          windows := windows + [w.value];
        }
      }
    }
    var id := EventId(info.name, fable);
    if id.Some? && info.direct.utilization.Some? {
      var w := QuotaWindow(id.value, info.direct.utilization.value, info.direct.resetsAt, now);
      if w.Some? {
        forall x ensures LastOf(windows + [w.value], x) == if w.value.id == x then w else LastOf(windows, x) {
          LastAppended(windows, w.value, x);
        }
        windows := windows + [w.value];
      }
    }
    refusal := NoRefusal;
    if info.rejected {
      refusal := if id.None? then Unclassified else Exhausted(id.value);
    }
  }
}
