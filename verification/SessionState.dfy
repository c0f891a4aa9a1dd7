/**
 What the goroutines of one session share (session.go, session_lifecycle.go), and the effect of each critical
 section on it as a function.

 The lifecycle publisher is assumed, not shown: it has a current incarnation that is active or fenced, and a
 terminal event for a run publishes nothing unless that run's incarnation is the active one. Process generations
 (`Gen`), foreground runs (`Fid`) and callback goroutines (`Cid`) are numbered.
 */
module SessionState {
  import opened Options

  type Gen = nat
  type Fid = nat
  type Cid = nat

  datatype Outcome = Success | Limit | Failed | Cancelled
  datatype Ended = Running | Settled | TransportEnded

  /** An accepted prompt, or a run claude started on its own in one process generation. */
  datatype Kind = Prompted | Agent(gen: Gen)

  datatype Via = Settlement | Death | Closing
  datatype Terminal = Terminal(outcome: Outcome, via: Via)

  /** One turn or cycle. `durable`, `commitFailed`, `native` and `published` are history: no code reads them. */
  datatype Foreground = Foreground(
    kind: Kind,
    inc: Option<nat>,             // the incarnation its events carry, once accepted or minted
    accepted: bool,
    cancelled: bool,
    settling: bool,
    ended: Ended,
    claimed: Option<bool>,        // `terminal`, with what the claim read
    verdict: Option<Outcome>,
    durable: bool,                // a mirror commit made for it succeeded, or it is exempt
    commitFailed: bool,
    native: Option<Outcome>,
    published: seq<Terminal>)

  /** A goroutine the session's WaitGroup counts. */
  datatype Callback =
    | Interrupt(f: Fid)
    | Dialog(f: Fid, pending: bool)   // pending: its action is announced and not resolved

  datatype Shared = Shared(
    runtime: Option<Gen>,
    retired: Option<Gen>,
    ending: set<Gen>,
    turn: Option<Fid>,
    cycle: Option<Fid>,
    closing: bool,
    persisted: bool,
    ephemeral: bool,
    fg: map<Fid, Foreground>,
    callbacks: map<Cid, Callback>,
    opener: Option<Gen>,          // openMu is held by an opening publication
    inc: nat,
    active: bool,
    streamGen: Option<Gen>)       // the generation the current incarnation was opened for

  function Fresh(kind: Kind, inc: Option<nat>): Foreground {
    Foreground(kind, inc, false, false, false, Running, None, None, false, false, None, [])
  }

  function Of(s: Shared, f: Fid): Foreground {
    if f in s.fg then s.fg[f] else Fresh(Prompted, None)
  }

  predicate Live(s: Shared, f: Fid) {
    f in s.fg && s.active && s.fg[f].inc == Some(s.inc)
  }

  function Current(s: Shared): Option<nat> {
    if s.active then Some(s.inc) else None
  }

  /******* What happens to one run *******/

  function AcceptRun(v: Foreground, inc: Option<nat>): Foreground {
    if v.accepted then v else v.(accepted := true, inc := inc)
  }

  /** settleOnce: the first end a turn is given stays. */
  function EndRun(v: Foreground, end: Ended): Foreground {
    if v.ended == Running then v.(ended := end) else v
  }

  /** The verdict before the commit: cancelled, a lost transport, or however the native run ended. */
  function JudgeRun(v: Foreground, native: Outcome): Foreground {
    v.(native := Some(native),
       verdict := Some(if v.cancelled then Cancelled
                       else if v.kind.Prompted? && v.ended == TransportEnded then Failed
                       else native))
  }

  /** A prompt whose commit fails is failed; an agent run keeps its verdict, but its stream is fenced before it. */
  function CommitRun(v: Foreground, ok: bool): Foreground {
    if ok then v.(durable := true)
    else v.(commitFailed := true, verdict := if v.kind.Prompted? then Some(Failed) else v.verdict)
  }

  function ClaimRun(v: Foreground): Foreground {
    v.(claimed := Some(v.cancelled),
       verdict := if v.cancelled && !(v.kind.Prompted? && v.commitFailed) then Some(Cancelled) else v.verdict)
  }

  /******* What the locked regions decide *******/

  predicate CanReserve(s: Shared, g: Gen) {
    s.turn.None? && s.cycle.None? && !s.closing && s.runtime == Some(g)
  }

  function Slot(s: Shared): Option<Fid> {
    if s.turn.Some? then s.turn else s.cycle
  }

  predicate CancelTakesEffect(s: Shared) {
    Slot(s).Some? && !Of(s, Slot(s).value).cancelled && Of(s, Slot(s).value).claimed.None?
  }

  predicate Interrupts(s: Shared) {
    && CancelTakesEffect(s) && !Of(s, Slot(s).value).settling
    && s.runtime.Some? && !s.closing && s.runtime.value !in s.ending
  }

  predicate Quiet(s: Shared, slot: Option<Fid>) {
    slot.Some? ==> !Of(s, slot.value).cancelled && !Of(s, slot.value).settling
  }

  predicate AdmitsDialog(s: Shared) {
    !s.closing && s.runtime.Some? && Quiet(s, s.turn) && Quiet(s, s.cycle)
  }

  predicate IsDialog(s: Shared, cid: Cid) {
    cid in s.callbacks && s.callbacks[cid].Dialog?
  }

  /** The checks of openStream under the session lock, but for the process's own exit. */
  predicate MayOpen(s: Shared, g: Gen) {
    !s.closing && s.runtime == Some(g) && g !in s.ending
  }

  /******* Critical sections *******/

  /** One locked region of the code, or one call on the publisher. */
  datatype Section =
    | NoSection
    | Install(f: Fid)                  // prompt: fill the turn slot unless a cycle is open
    | Unslot(f: Fid)
    | Mint(f: Fid, g: Gen)             // openAgentCycle: NewAgentCycle
    | Reserve(f: Fid, g: Gen)          // openAgentCycle: fill the cycle slot
    | Uncycle(f: Fid)
    | Accept(f: Fid)                   // acceptTurn
    | End(f: Fid, end: Ended)          // turn.settle
    | Begin(f: Fid)                    // beginSettlement
    | Judge(f: Fid, native: Outcome)
    | Commit(f: Fid, ok: bool)         // commitMirror, for the run being settled
    | Claim(f: Fid)                    // claimCancellation
    | Idle(f: Fid, t: Terminal)        // the publisher's terminal event
    | CancelSlot(cid: Cid)             // cancel; cid is the interrupt it may start
    | Register(f: Fid, cid: Cid)       // registerDialog
    | Announce(cid: Cid)
    | Resolve(cid: Cid)
    | Finish(cid: Cid)                 // a callback goroutine leaves the WaitGroup
    | CommitAll(ok: bool)              // commitMirror, for no run in particular
    | Bound(g: Gen)                    // launch: bind unless closing
    | Drop(g: Gen)                     // dropRuntime
    | Forget(g: Gen)                   // awaitRetired, once the process has exited
    | FenceStream
    | StartOpen(g: Gen)                // openStream, having passed its checks
    | FinishOpen(ok: bool)
    | StartEnding(g: Gen)              // runtimeEnded, first section
    | Unbound(g: Gen)                  // runtimeEnded, last section
    | StartClose
    | TakeCycle

  datatype Change = Change(f: Fid, v: Foreground)

  /** The run a section rewrites or makes. */
  function Changed(s: Shared, x: Section): Option<Change> {
    match x
    case Install(f) => if s.cycle.Some? then None else Some(Change(f, Fresh(Prompted, None)))
    case Mint(f, g) => Some(Change(f, Fresh(Agent(g), Current(s))))
    case Accept(f) => Some(Change(f, AcceptRun(Of(s, f), Current(s))))
    case End(f, end) => Some(Change(f, EndRun(Of(s, f), end)))
    case Begin(f) => Some(Change(f, Of(s, f).(settling := true)))
    case Judge(f, native) => Some(Change(f, JudgeRun(Of(s, f), native)))
    case Commit(f, ok) => Some(Change(f, CommitRun(Of(s, f), s.ephemeral || ok)))
    case Claim(f) => Some(Change(f, ClaimRun(Of(s, f))))
    case Idle(f, t) => if Live(s, f) then Some(Change(f, Of(s, f).(published := Of(s, f).published + [t]))) else None
    case CancelSlot(_) =>
      if CancelTakesEffect(s) then Some(Change(Slot(s).value, Of(s, Slot(s).value).(cancelled := true))) else None
    case StartClose =>
      if s.turn.Some? then Some(Change(s.turn.value, Of(s, s.turn.value).(cancelled := true))) else None
    case _ => None
  }

  function Runs(s: Shared, x: Section): map<Fid, Foreground> {
    if Changed(s, x).Some? then s.fg[Changed(s, x).value.f := Changed(s, x).value.v] else s.fg
  }

  function Callbacks(s: Shared, x: Section): map<Cid, Callback> {
    match x
    case CancelSlot(cid) => if Interrupts(s) then s.callbacks[cid := Interrupt(Slot(s).value)] else s.callbacks
    case Register(f, cid) => if AdmitsDialog(s) then s.callbacks[cid := Dialog(f, false)] else s.callbacks
    case Announce(cid) =>
      // An action is announced only for a run of the active incarnation.
      if IsDialog(s, cid) && Live(s, s.callbacks[cid].f)
      then s.callbacks[cid := Dialog(s.callbacks[cid].f, true)] else s.callbacks
    case Resolve(cid) =>
      if IsDialog(s, cid) then s.callbacks[cid := Dialog(s.callbacks[cid].f, false)] else s.callbacks
    case Finish(cid) => s.callbacks - {cid}
    case _ => s.callbacks
  }

  function Runtime(s: Shared, x: Section): Option<Gen> {
    match x
    case Bound(g) => if s.closing then s.runtime else Some(g)
    case Drop(g) => if s.runtime == Some(g) then None else s.runtime
    case Unbound(g) => if s.runtime == Some(g) then None else s.runtime
    case _ => s.runtime
  }

  function Retired(s: Shared, x: Section): Option<Gen> {
    match x
    case Drop(g) => if s.runtime == Some(g) then Some(g) else s.retired
    case Unbound(g) => if s.runtime == Some(g) then Some(g) else s.retired
    case Forget(g) => if s.retired == Some(g) then None else s.retired
    case _ => s.retired
  }

  function Turn(s: Shared, x: Section): Option<Fid> {
    match x
    case Install(f) => if s.cycle.Some? then s.turn else Some(f)
    case Unslot(f) => if s.turn == Some(f) then None else s.turn
    case _ => s.turn
  }

  function Cycle(s: Shared, x: Section): Option<Fid> {
    match x
    case Reserve(f, g) => if CanReserve(s, g) then Some(f) else s.cycle
    case Uncycle(f) => if s.cycle == Some(f) then None else s.cycle
    case StartEnding(g) => if s.runtime == Some(g) && !s.closing then None else s.cycle
    case TakeCycle => None
    case _ => s.cycle
  }

  function Persisted(s: Shared, x: Section): bool {
    match x
    case Commit(_, ok) => s.persisted || (ok && !s.ephemeral)
    case CommitAll(ok) => s.persisted || (ok && !s.ephemeral)
    case _ => s.persisted
  }

  function Active(s: Shared, x: Section): bool {
    match x
    case FinishOpen(ok) => s.active || ok
    case FenceStream => false
    case Unbound(g) => s.active && (s.closing || s.runtime != Some(g))
    case _ => s.active
  }

  function Opener(s: Shared, x: Section): Option<Gen> {
    match x
    case StartOpen(g) => Some(g)
    case FinishOpen(_) => None
    case _ => s.opener
  }

  predicate Opens(x: Section) {
    x.FinishOpen? && x.ok
  }

  /** The state a critical section leaves. */
  function Apply(s: Shared, x: Section): Shared {
    Shared(
      Runtime(s, x),
      Retired(s, x),
      if x.StartEnding? && s.runtime == Some(x.g) then s.ending + {x.g} else s.ending,
      Turn(s, x),
      Cycle(s, x),
      s.closing || x.StartClose?,
      Persisted(s, x),
      s.ephemeral,
      Runs(s, x),
      Callbacks(s, x),
      Opener(s, x),
      if Opens(x) then s.inc + 1 else s.inc,
      Active(s, x),
      if Opens(x) then s.opener else s.streamGen)
  }
}
