/**
 The whole cache: any number of keys, readers and observations. An entry is reached through its key only, so what
 matters is which entry a key names while a reader that dropped the lock still holds on to it.
 */
module QuotaCacheMachine {
  import opened Options
  import opened QuotaEntry
  import Q = QuotaMachine

  const EVICT_AFTER := 360 * MINUTE

  /** The digest of one account's credentials. */
  type Key = nat

  datatype Role = Waiting(key: Key, eid: nat) | Refreshing(key: Key, eid: nat)

  /** One allocated entry with the steps it has taken since birth. */
  datatype Slot = Slot(state: Q.State, born: int, trace: seq<Q.Label>)

  datatype Cache = Cache(entries: map<Key, nat>, heap: map<nat, Slot>, next: nat, readers: map<nat, Role>, clock: int)

  datatype Label =
    | Open(rid: nat, key: Key, now: int)            // Read up to its first unlock
    | Step(rid: nat, inner: Q.Label)                // a refreshing reader's next critical section
    | Leave(wrid: nat, cancelled: bool)             // a waiter finds the refresh done, or its caller gave up
    | Turn(tkey: Key, windows: seq<Window>, refusal: Refusal, tnow: int)

  function Init(now: int): Cache {
    Cache(map[], map[], 0, map[], now)
  }

  predicate Evictable(c: Cache, eid: nat, now: int) {
    eid in c.heap && !c.heap[eid].state.e.running && now - c.heap[eid].state.e.lastUsed > EVICT_AFTER
  }

  function Evict(c: Cache, now: int): map<Key, nat> {
    map k | k in c.entries && !Evictable(c, c.entries[k], now) :: c.entries[k]
  }

  /** The lookup both Read and Observe start with. */
  function Entry(c: Cache, key: Key, now: int): Cache {
    if key in c.entries then c.(clock := now)
    else Cache(Evict(c, now)[key := c.next], c.heap[c.next := Slot(Q.Init(now), now, [])], c.next + 1, c.readers, now)
  }

  predicate CanAct(c: Cache, eid: nat, l: Q.Label) {
    eid in c.heap && Q.Enabled(c.heap[eid].state, l)
  }

  function Act(c: Cache, eid: nat, l: Q.Label): Cache
    requires CanAct(c, eid, l)
  {
    var s := c.heap[eid];
    var state := Q.Next(s.state, l);
    c.(heap := c.heap[eid := Slot(state, s.born, s.trace + [l])],
       clock := if state.clock > c.clock then state.clock else c.clock)
  }

  function OpenLabel(e: QuotaEntry.Entry, now: int): Q.Label {
    if e.running then Q.Join(now)
    else if Due(Expire(e, now), 0, now) || Due(Expire(e, now), 1, now) then Q.Begin(now)
    else Q.Hit(now)
  }

  predicate InnerOk(l: Q.Label) {
    l.Skip? || l.Snap? || l.Reply? || l.Finish?
  }

  predicate Timed(c: Cache, l: Q.Label) {
    match l
    case Snap(now) => now >= c.clock
    case Reply(_, _, _, now) => now >= c.clock
    case _ => true
  }

  predicate Enabled(c: Cache, l: Label) {
    match l
    case Open(rid, key, now) =>
      && now >= c.clock && rid !in c.readers
      && (key in c.entries ==> c.entries[key] in c.heap)
      && var d := Entry(c, key, now);
         CanAct(d, d.entries[key], OpenLabel(d.heap[d.entries[key]].state.e, now))
    case Step(rid, inner) =>
      && InnerOk(inner) && Timed(c, inner)
      && rid in c.readers && c.readers[rid].Refreshing? && CanAct(c, c.readers[rid].eid, inner)
    case Leave(rid, cancelled) =>
      && rid in c.readers && c.readers[rid].Waiting?
      && c.readers[rid].eid in c.heap && (cancelled || !c.heap[c.readers[rid].eid].state.e.running)
    case Turn(key, windows, refusal, now) =>
      && now >= c.clock
      && var d := Entry(c, key, now);
         CanAct(d, d.entries[key], Q.Turn(windows, refusal, now))
  }

  function OpenReaders(d: Cache, rid: nat, key: Key, l: Q.Label): map<nat, Role>
    requires key in d.entries
  {
    if l.Join? then d.readers[rid := Waiting(key, d.entries[key])]
    else if l.Begin? then d.readers[rid := Refreshing(key, d.entries[key])]
    else d.readers
  }

  function Next(c: Cache, l: Label): Cache
    requires Enabled(c, l)
  {
    match l
    case Open(rid, key, now) =>
      var d := Entry(c, key, now);
      var inner := OpenLabel(d.heap[d.entries[key]].state.e, now);
      Act(d, d.entries[key], inner).(readers := OpenReaders(d, rid, key, inner))
    case Step(rid, inner) =>
      Act(c, c.readers[rid].eid, inner).(readers := if inner.Finish? then c.readers - {rid} else c.readers)
    case Leave(rid, _) => c.(readers := c.readers - {rid})
    case Turn(key, windows, refusal, now) =>
      var d := Entry(c, key, now);
      Act(d, d.entries[key], Q.Turn(windows, refusal, now))
  }

  ghost predicate Legal(c: Cache, ls: seq<Label>)
    decreases |ls|
  {
    ls == [] || (Enabled(c, ls[0]) && Legal(Next(c, ls[0]), ls[1..]))
  }

  ghost function Run(c: Cache, ls: seq<Label>): Cache
    requires Legal(c, ls)
    decreases |ls|
  {
    if ls == [] then c else Run(Next(c, ls[0]), ls[1..])
  }

  /******* The invariant *******/

  /** The slot's state is what a run of the entry machine reaches from birth. */
  ghost predicate RealRun(s: Slot) {
    && 0 <= s.born
    && Q.Legal(Q.Init(s.born), s.trace)
    && Q.Run(Q.Init(s.born), s.trace) == s.state
  }

  ghost predicate HeapReal(heap: map<nat, Slot>, next: nat, clock: int) {
    forall eid :: eid in heap ==> eid < next && RealRun(heap[eid]) && heap[eid].state.clock <= clock
  }

  /** Keys name distinct entries. */
  ghost predicate KeysDistinct(entries: map<Key, nat>) {
    forall k, j :: k in entries && j in entries && entries[k] == entries[j] ==> k == j
  }

  function Live(heap: map<nat, Slot>): set<nat> {
    set eid | eid in heap && heap[eid].state.e.running
  }

  /** A running refresh has exactly one reader, and every reader of it reaches it through its key. */
  ghost predicate RefreshesOwned(entries: map<Key, nat>, readers: map<nat, Role>, live: set<nat>) {
    && (forall r :: r in readers && readers[r].Refreshing? ==> readers[r].eid in live)
    && (forall r :: r in readers && readers[r].eid in live ==> readers[r].key in entries)
    && (forall r :: r in readers && readers[r].key in entries && readers[r].eid in live ==>
                      entries[readers[r].key] == readers[r].eid)
    && (forall r, q :: r in readers && q in readers && readers[r].Refreshing? && readers[q].Refreshing? && r != q ==>
                         readers[r].eid != readers[q].eid)
  }

  /** An entry is only ever reached under one key. */
  ghost predicate KeyFixed(entries: map<Key, nat>, readers: map<nat, Role>) {
    forall r, k :: r in readers && k in entries && entries[k] == readers[r].eid ==> readers[r].key == k
  }

  ghost predicate Owned(entries: map<Key, nat>, readers: map<nat, Role>, live: set<nat>) {
    KeysDistinct(entries) && KeyFixed(entries, readers) && RefreshesOwned(entries, readers, live)
  }

  ghost predicate Inv(c: Cache) {
    && c.clock >= 0
    && HeapReal(c.heap, c.next, c.clock)
    && c.entries.Values <= c.heap.Keys
    && (forall r :: r in c.readers ==> c.readers[r].eid in c.heap)
    && Owned(c.entries, c.readers, Live(c.heap))
  }

  lemma {:induction false} RunAppends(st: Q.State, ls: seq<Q.Label>, l: Q.Label)
    requires Q.Legal(st, ls) && Q.Enabled(Q.Run(st, ls), l)
    ensures Q.Legal(st, ls + [l]) && Q.Run(st, ls + [l]) == Q.Next(Q.Run(st, ls), l)
    decreases |ls|
  {
    if ls == [] {
      assert [l][1..] == [];
    } else {
      RunAppends(Q.Next(st, ls[0]), ls[1..], l);
      assert (ls + [l])[1..] == ls[1..] + [l];
    }
  }

  lemma NewEntryReal(heap: map<nat, Slot>, next: nat, clock: int, now: int)
    requires HeapReal(heap, next, clock) && now >= clock >= 0
    ensures var heap' := heap[next := Slot(Q.Init(now), now, [])];
            HeapReal(heap', next + 1, now) && Live(heap') == Live(heap) && next !in heap
  {
  }

  lemma LaterReal(heap: map<nat, Slot>, next: nat, clock: int, now: int)
    requires HeapReal(heap, next, clock) && now >= clock
    ensures HeapReal(heap, next, now)
  {
  }

  /** A lookup drops no entry that a refresh holds up. */
  lemma LookupOwned(entries: map<Key, nat>, kept: map<Key, nat>, readers: map<nat, Role>, live: set<nat>, key: Key, eid: nat)
    requires Owned(entries, readers, live) && key !in entries
    requires eid !in entries.Values && eid !in live && (forall r :: r in readers ==> readers[r].eid != eid)
    requires kept.Keys <= entries.Keys && (forall k :: k in kept ==> kept[k] == entries[k])
    requires forall k :: k in entries && entries[k] in live ==> k in kept
    ensures Owned(kept[key := eid], readers, live)
  {
  }

  lemma EntryKeeps(c: Cache, key: Key, now: int)
    requires Inv(c) && now >= c.clock
    ensures var d := Entry(c, key, now);
            Inv(d) && key in d.entries && d.readers == c.readers
  {
    LaterReal(c.heap, c.next, c.clock, now);
    if key !in c.entries {
      NewEntryReal(c.heap, c.next, c.clock, now);
      LookupOwned(c.entries, Evict(c, now), c.readers, Live(c.heap), key, c.next);
    }
  }

  function LiveAfter(live: set<nat>, eid: nat, l: Q.Label): set<nat> {
    if l.Begin? then live + {eid} else if l.Finish? then live - {eid} else live
  }

  lemma NextRunning(st: Q.State, l: Q.Label)
    requires Q.Enabled(st, l)
    ensures Q.Next(st, l).e.running == if l.Begin? then true else if l.Finish? then false else st.e.running
  {
    if l.Turn? { Q.ObserveRunning(st.e, l.windows, l.refusal, l.now); }
    if l.Reply? { Q.ApplyProbeRunning(st.e, st.flight.lane, l.answer, l.err, st.flight.versions, l.now); }
  }

  /** A step changes an entry's running flag only by beginning or finishing its refresh. */
  lemma ActReal(c: Cache, eid: nat, l: Q.Label)
    requires HeapReal(c.heap, c.next, c.clock) && CanAct(c, eid, l)
    ensures var d := Act(c, eid, l);
            HeapReal(d.heap, d.next, d.clock) && c.clock <= d.clock
    ensures Act(c, eid, l).heap.Keys == c.heap.Keys
  {
    var s := c.heap[eid];
    var d := Act(c, eid, l);
    RunAppends(Q.Init(s.born), s.trace, l);
    assert RealRun(d.heap[eid]);
    LaterReal(c.heap, c.next, c.clock, d.clock);
  }

  lemma ActLive(c: Cache, eid: nat, l: Q.Label)
    requires CanAct(c, eid, l)
    ensures Live(Act(c, eid, l).heap) == LiveAfter(Live(c.heap), eid, l)
  {
    NextRunning(c.heap[eid].state, l);
  }

  lemma JoinOwned(entries: map<Key, nat>, readers: map<nat, Role>, live: set<nat>, rid: nat, key: Key)
    requires Owned(entries, readers, live) && rid !in readers && key in entries
    ensures Owned(entries, readers[rid := Waiting(key, entries[key])], live)
  {
  }

  /** A reader begins a refresh only of an entry nobody is refreshing. */
  lemma BeginOwned(entries: map<Key, nat>, readers: map<nat, Role>, live: set<nat>, rid: nat, key: Key)
    requires Owned(entries, readers, live) && rid !in readers && key in entries && entries[key] !in live
    ensures Owned(entries, readers[rid := Refreshing(key, entries[key])], live + {entries[key]})
  {
  }

  lemma LeaveOwned(entries: map<Key, nat>, readers: map<nat, Role>, live: set<nat>, rid: nat)
    requires Owned(entries, readers, live) && rid in readers
    ensures readers[rid].Refreshing? ==> Owned(entries, readers - {rid}, live - {readers[rid].eid})
    ensures Owned(entries, readers - {rid}, live) || readers[rid].Refreshing?
  {
  }

  lemma ReadersChange(d: Cache, readers: map<nat, Role>, live: set<nat>)
    requires d.clock >= 0 && HeapReal(d.heap, d.next, d.clock) && d.entries.Values <= d.heap.Keys
    requires forall r :: r in readers ==> readers[r].eid in d.heap
    requires live == Live(d.heap) && Owned(d.entries, readers, live)
    ensures Inv(d.(readers := readers))
  {
  }

  /** A read begins a refresh only of an entry that is not running one. */
  lemma BeginsIdle(d: Cache, key: Key, now: int)
    requires key in d.entries && d.entries[key] in d.heap
    ensures OpenLabel(d.heap[d.entries[key]].state.e, now).Begin? ==> d.entries[key] !in Live(d.heap)
  {
  }

  lemma OpenActs(d: Cache, rid: nat, key: Key, now: int, l: Q.Label)
    requires Inv(d) && rid !in d.readers && key in d.entries && CanAct(d, d.entries[key], l)
    requires l == OpenLabel(d.heap[d.entries[key]].state.e, now)
    ensures Inv(Act(d, d.entries[key], l).(readers := OpenReaders(d, rid, key, l)))
  {
    var eid := d.entries[key];
    ActReal(d, eid, l);
    ActLive(d, eid, l);
    BeginsIdle(d, key, now);
    OpenInstalls(d, Act(d, eid, l), rid, key, l);
  }

  lemma OpenKeeps(c: Cache, rid: nat, key: Key, now: int)
    requires Inv(c) && Enabled(c, Open(rid, key, now))
    ensures Inv(Next(c, Open(rid, key, now)))
  {
    var d := Entry(c, key, now);
    EntryKeeps(c, key, now);
    OpenActs(d, rid, key, now, OpenLabel(d.heap[d.entries[key]].state.e, now));
  }

  lemma OpenInstalls(d: Cache, d': Cache, rid: nat, key: Key, l: Q.Label)
    requires Inv(d) && rid !in d.readers && key in d.entries
    requires l.Join? || l.Begin? || l.Hit?
    requires l.Begin? ==> d.entries[key] !in Live(d.heap)
    requires d'.entries == d.entries && d'.heap.Keys == d.heap.Keys && d'.clock >= d.clock
    requires HeapReal(d'.heap, d'.next, d'.clock) && Live(d'.heap) == LiveAfter(Live(d.heap), d.entries[key], l)
    ensures Inv(d'.(readers := OpenReaders(d, rid, key, l)))
  {
    if l.Join? { JoinOwned(d.entries, d.readers, Live(d.heap), rid, key); }
    if l.Begin? { BeginOwned(d.entries, d.readers, Live(d.heap), rid, key); }
    ReadersChange(d', OpenReaders(d, rid, key, l), Live(d'.heap));
  }

  lemma InnerKeeps(c: Cache, rid: nat, inner: Q.Label)
    requires Inv(c) && Enabled(c, Step(rid, inner))
    ensures Inv(Next(c, Step(rid, inner)))
  {
    var eid := c.readers[rid].eid;
    var d := Act(c, eid, inner);
    ActReal(c, eid, inner);
    ActLive(c, eid, inner);
    LeaveOwned(c.entries, c.readers, Live(c.heap), rid);
    ReadersChange(d, if inner.Finish? then c.readers - {rid} else c.readers, LiveAfter(Live(c.heap), eid, inner));
  }

  lemma TurnKeeps(c: Cache, key: Key, windows: seq<Window>, refusal: Refusal, now: int)
    requires Inv(c) && Enabled(c, Turn(key, windows, refusal, now))
    ensures Inv(Next(c, Turn(key, windows, refusal, now)))
  {
    var d := Entry(c, key, now);
    var l := Q.Turn(windows, refusal, now);
    EntryKeeps(c, key, now);
    ActReal(d, d.entries[key], l);
    ActLive(d, d.entries[key], l);
    ReadersChange(Act(d, d.entries[key], l), d.readers, Live(d.heap));
  }

  lemma StepKeeps(c: Cache, l: Label)
    requires Inv(c) && Enabled(c, l)
    ensures Inv(Next(c, l))
  {
    match l {
      case Open(rid, key, now) => OpenKeeps(c, rid, key, now);
      case Step(rid, inner) => InnerKeeps(c, rid, inner);
      case Leave(rid, _) => LeaveOwned(c.entries, c.readers, Live(c.heap), rid);
      case Turn(key, windows, refusal, now) => TurnKeeps(c, key, windows, refusal, now);
    }
  }

  lemma {:induction false} RunKeeps(c: Cache, ls: seq<Label>)
    requires Inv(c) && Legal(c, ls)
    ensures Inv(Run(c, ls))
    decreases |ls|
  {
    if ls != [] {
      StepKeeps(c, ls[0]);
      RunKeeps(Next(c, ls[0]), ls[1..]);
    }
  }

  /******* What every run of the cache promises *******/

  /** At most one reader per key is refreshing, and its entry is still the one the key names. */
  lemma OneRefreshPerKey(start: int, ls: seq<Label>, r: nat, q: nat)
    requires start >= 0 && Legal(Init(start), ls)
    requires var c := Run(Init(start), ls);
             && r in c.readers && q in c.readers && c.readers[r].Refreshing? && c.readers[q].Refreshing?
             && c.readers[r].key == c.readers[q].key
    ensures r == q
    ensures var c := Run(Init(start), ls);
            c.readers[r].key in c.entries && c.entries[c.readers[r].key] == c.readers[r].eid
  {
    RunKeeps(Init(start), ls);
  }

  /** While a refresh runs, every read and every observation of its key acts on the entry being refreshed, whatever
      else the same step evicts. */
  lemma RefreshedEntryIsReached(start: int, ls: seq<Label>, r: nat, key: Key, now: int)
    requires start >= 0 && Legal(Init(start), ls)
    requires var c := Run(Init(start), ls);
             now >= c.clock && r in c.readers && c.readers[r].Refreshing?
    ensures var c := Run(Init(start), ls);
            && Entry(c, c.readers[r].key, now).entries[c.readers[r].key] == c.readers[r].eid
            && (key !in c.entries ==> c.readers[r].key in Entry(c, key, now).entries
                                      && Entry(c, key, now).entries[c.readers[r].key] == c.readers[r].eid)
  {
    RunKeeps(Init(start), ls);
  }

  /** Every entry's history is a run of the entry machine, so what holds of those runs holds of every entry. */
  lemma EntriesAreRuns(start: int, ls: seq<Label>, key: Key)
    requires start >= 0 && Legal(Init(start), ls) && key in Run(Init(start), ls).entries
    ensures var c := Run(Init(start), ls);
            && c.entries[key] in c.heap
            && var s := c.heap[c.entries[key]];
               0 <= s.born && Q.Legal(Q.Init(s.born), s.trace) && Q.Run(Q.Init(s.born), s.trace) == s.state
  {
    RunKeeps(Init(start), ls);
    assert Run(Init(start), ls).entries[key] in Run(Init(start), ls).entries.Values;
  }
}
