/**
 How one cycle's native stream becomes session updates (session_updates.go), and the replay it must agree with
 (session_replay.go). Streamed text is shown as it arrives; a completed block is matched against it so that each byte
 is shown once. `ledgers` and the compaction notes in `sent` are history.
 */
module Projection {
  import opened Options

  /** The parent tool use an event belongs to. */
  datatype Parent = Top | Under(tool: nat)

  /** An id a record may leave empty. */
  type Id = Option<nat>

  type Byte = nat
  type Bytes = seq<Byte>

  datatype Kind = Text | Thinking

  datatype Block = Prose(kind: Kind, text: Bytes) | Other

  /** One usage report; a member the report leaves out is None. */
  datatype Figures = Figures(input: Option<int>, cacheRead: Option<int>, cacheWrite: Option<int>, output: Option<int>)

  datatype Opening = Opening(id: Id, usage: Figures)

  datatype Event =
    | MessageStart(parent: Parent, message: Option<Opening>)
    | Delta(parent: Parent, kind: Kind, text: Bytes)
    | MessageDelta(parent: Parent, usage: Figures)
    | Assistant(parent: Parent, row: Id, id: Id, synthetic: bool, blocks: seq<Block>, usage: Figures)
    | Compacted(parent: Parent)

  datatype Origin = Request | CallEnd(id: Id, figures: Figures) | Record(id: Id, figures: Figures)

  datatype Update =
    | Chunk(parent: Parent, kind: Kind, text: Bytes)
    | Usage(used: int, origin: Origin)
    | Compaction

  /** One parent's current API message. */
  datatype Message = Message(rows: Id, finalized: set<Id>, textUsed: nat, thinkingUsed: nat) {
    function Used(kind: Kind): nat { if kind.Text? then textUsed else thinkingUsed }
    function WithUsed(kind: Kind, used: nat): Message {
      if kind.Text? then this.(textUsed := used) else this.(thinkingUsed := used)
    }
  }

  /** History of one parent and kind: what was shown before and since the last message_start, what blocks matched
      since, what blocks were offered in all, and whether every block matched and no start cut a tail off. */
  datatype Ledger = Ledger(before: Bytes, shown: Bytes, matched: Bytes, offered: Bytes, clean: bool)

  datatype Key = Key(parent: Parent, kind: Kind)

  datatype Cycle = Cycle(
    replay: bool,
    messages: map<Parent, Message>,
    streams: map<Key, Bytes>,
    context: int,
    call: Id,
    callStart: Figures,
    callOpen: bool,
    sent: seq<Update>,
    ledgers: map<Key, Ledger>)

  const NOTHING := Figures(None, None, None, None)

  function Opened(replay: bool): Cycle {
    Cycle(replay, map[], map[], 0, None, NOTHING, false, [], map[])
  }

  function MessageOf(c: Cycle, parent: Parent): Message {
    if parent in c.messages then c.messages[parent] else Message(None, {}, 0, 0)
  }

  function Streamed(c: Cycle, key: Key): Bytes {
    if key in c.streams then c.streams[key] else []
  }

  function LedgerOf(c: Cycle, key: Key): Ledger {
    if key in c.ledgers then c.ledgers[key] else Ledger([], [], [], [], true)
  }

  function Used(c: Cycle, key: Key): nat {
    MessageOf(c, key.parent).Used(key.kind)
  }

  /** The streamed bytes no completed block has matched yet. */
  function Tail(c: Cycle, key: Key): Bytes {
    if Used(c, key) <= |Streamed(c, key)| then Streamed(c, key)[Used(c, key)..] else []
  }

  function Send(c: Cycle, u: Update): Cycle {
    c.(sent := c.sent + [u])
  }

  /******* Text *******/

  function Cut(l: Ledger, tail: Bytes): Ledger {
    Ledger(l.before + l.shown, [], [], l.offered, l.clean && tail == [])
  }

  function StartMessage(c: Cycle, parent: Parent): Cycle {
    c.(messages := c.messages[parent := MessageOf(c, parent).(textUsed := 0, thinkingUsed := 0)],
       streams := c.streams - {Key(parent, Text), Key(parent, Thinking)},
       ledgers := c.ledgers[Key(parent, Text) := Cut(LedgerOf(c, Key(parent, Text)), Tail(c, Key(parent, Text)))]
                           [Key(parent, Thinking) := Cut(LedgerOf(c, Key(parent, Thinking)), Tail(c, Key(parent, Thinking)))])
  }

  function Stream(c: Cycle, key: Key, text: Bytes): Cycle {
    Send(c.(streams := c.streams[key := Streamed(c, key) + text],
            ledgers := c.ledgers[key := LedgerOf(c, key).(shown := LedgerOf(c, key).shown + text)]),
         Chunk(key.parent, key.kind, text))
  }

  datatype Match = Match(used: nat, suffix: Bytes, matched: bool)

  /** One completed block against the streamed bytes after `used`: already shown, shown in part, or another text. */
  function MatchBlock(text: Bytes, used: nat, full: Bytes): Match
    requires used <= |text|
  {
    var pending := text[used..];
    if full <= pending then Match(used + |full|, [], true)
    else if pending <= full then Match(|text|, full[|pending|..], true)
    else Match(used, [], false)
  }

  /** Once every streamed byte is matched the stream is released. */
  function Settle(c: Cycle, key: Key, m: Match): Cycle {
    var spent := m.used == |Streamed(c, key)|;
    c.(messages := c.messages[key.parent := MessageOf(c, key.parent).WithUsed(key.kind, if spent then 0 else m.used)],
       streams := if spent then c.streams - {key} else c.streams)
  }

  function Book(l: Ledger, m: Match, full: Bytes): Ledger {
    if m.matched then l.(shown := l.shown + m.suffix, matched := l.matched + full, offered := l.offered + full)
    else l.(offered := l.offered + full, clean := false)
  }

  function Consume(c: Cycle, key: Key, full: Bytes): Cycle
    requires Used(c, key) <= |Streamed(c, key)|
  {
    if full == [] then c
    else
      var m := MatchBlock(Streamed(c, key), Used(c, key), full);
      var booked := c.(ledgers := c.ledgers[key := Book(LedgerOf(c, key), m, full)]);
      if !m.matched then booked
      else if m.suffix == [] then Settle(booked, key, m)
      else Send(Settle(booked, key, m), Chunk(key.parent, key.kind, m.suffix))
  }

  ghost predicate InRange(c: Cycle) {
    forall key: Key :: Used(c, key) <= |Streamed(c, key)|
  }

  lemma ConsumeInRange(c: Cycle, key: Key, full: Bytes)
    requires InRange(c)
    ensures InRange(Consume(c, key, full))
  {
    var d := Consume(c, key, full);
    forall k: Key ensures Used(d, k) <= |Streamed(d, k)| {
      assert Used(c, k) <= |Streamed(c, k)|;
      if full != [] { SettleInRange(c, key, MatchBlock(Streamed(c, key), Used(c, key), full), k); }
    }
  }

  lemma SettleInRange(c: Cycle, key: Key, m: Match, k: Key)
    requires m.used <= |Streamed(c, key)| && Used(c, k) <= |Streamed(c, k)|
    ensures Used(Settle(c, key, m), k) <= |Streamed(Settle(c, key, m), k)|
  {
  }

  /** The blocks of one row, in order. */
  ghost function ConsumeAll(c: Cycle, parent: Parent, blocks: seq<Block>): (d: Cycle)
    requires InRange(c)
    ensures InRange(d)
  {
    if blocks == [] then c
    else
      var d := ConsumeAll(c, parent, blocks[..|blocks| - 1]);
      var block := blocks[|blocks| - 1];
      if block.Prose? then
        ConsumeInRange(d, Key(parent, block.kind), block.text);
        Consume(d, Key(parent, block.kind), block.text)
      else d
  }

  /** A live stream is done with the rows of one API message when the next begins; replay keeps every row. */
  function Turnover(m: Message, replay: bool, id: Id): Message {
    if !replay && id != m.rows then m.(rows := id, finalized := {}) else m
  }

  predicate AlreadyShown(m: Message, replay: bool, id: Id, row: Id) {
    row.Some? && row in Turnover(m, replay, id).finalized
  }

  function Finalize(m: Message, replay: bool, id: Id, row: Id): Message {
    var turned := Turnover(m, replay, id);
    if row.Some? then turned.(finalized := turned.finalized + {row}) else turned
  }

  /******* Usage *******/

  function Tokens(member: Option<int>): int {
    if member.Some? then member.value else 0
  }

  function RequestTokens(f: Figures): int {
    Tokens(f.input) + Tokens(f.cacheRead) + Tokens(f.cacheWrite)
  }

  /** A report that states something: some member is present and not zero. */
  predicate Known(f: Figures) {
    Tokens(f.input) != 0 || Tokens(f.cacheRead) != 0 || Tokens(f.cacheWrite) != 0 || Tokens(f.output) != 0
  }

  function Or(a: Option<int>, b: Option<int>): Option<int> {
    if a.Some? then a else b
  }

  function ResponseUsage(start: Figures, end: Figures): Figures {
    if RequestTokens(end) > 0
    then Figures(Or(end.input, start.input), Or(end.cacheRead, start.cacheRead), Or(end.cacheWrite, start.cacheWrite), end.output)
    else start.(output := end.output)
  }

  function EmitContext(c: Cycle, used: int, origin: Origin): Cycle {
    if used <= 0 then c else Send(c.(context := used), Usage(used, origin))
  }

  function OpenCall(c: Cycle, o: Opening): Cycle {
    var start := if Known(o.usage) then o.usage else NOTHING;
    EmitContext(c.(call := o.id, callStart := start, callOpen := true), RequestTokens(start), Request)
  }

  function CloseCall(c: Cycle, usage: Figures): Cycle {
    if !c.callOpen then c
    else
      var closed := c.(callOpen := false);
      if !Known(usage) then closed
      else
        var figures := ResponseUsage(c.callStart, usage);
        if RequestTokens(figures) == 0 then closed
        else EmitContext(closed, RequestTokens(figures) + Tokens(figures.output), CallEnd(c.call, figures))
  }

  /** A call no message_start announced reports its request with the record. */
  function RecordCall(c: Cycle, parent: Parent, id: Id, synthetic: bool, usage: Figures): Cycle {
    var responseId := if synthetic then None else id;
    if c.replay || parent != Top || responseId.None? || responseId == c.call then c
    else
      var figures := usage.(output := None);
      EmitContext(c.(call := responseId, callOpen := false), RequestTokens(figures), Record(responseId, figures))
  }

  function Compact(c: Cycle): Cycle {
    Send(c.(context := 0, call := None, callOpen := false), Compaction)
  }

  /******* Events *******/

  ghost function ProjectAssistant(c: Cycle, e: Event): Cycle
    requires e.Assistant? && InRange(c)
  {
    var m := MessageOf(c, e.parent);
    if AlreadyShown(m, c.replay, e.id, e.row) then c
    else
      var d := c.(messages := c.messages[e.parent := Finalize(m, c.replay, e.id, e.row)]);
      KeepsRange(c, d, e.parent);
      RecordCall(ConsumeAll(d, e.parent, e.blocks), e.parent, e.id, e.synthetic, e.usage)
  }

  lemma KeepsRange(c: Cycle, d: Cycle, parent: Parent)
    requires InRange(c) && d.streams == c.streams && d.messages.Keys == c.messages.Keys + {parent}
    requires forall p, k :: MessageOf(d, p).Used(k) == MessageOf(c, p).Used(k)
    ensures InRange(d)
  {
    forall key: Key ensures Used(d, key) <= |Streamed(d, key)| {
      assert Used(c, key) <= |Streamed(c, key)|;
    }
  }

  function ProjectStream(c: Cycle, e: Event): Cycle {
    match e
    case MessageStart(parent, message) =>
      var d := StartMessage(c, parent);
      if message.Some? && parent == Top then OpenCall(d, message.value) else d
    case Delta(parent, kind, text) => Stream(c, Key(parent, kind), text)
    case MessageDelta(parent, usage) => if parent == Top then CloseCall(c, usage) else c
    case _ => c
  }

  /** A cancelled cycle only follows compactions; replay reads only rows. */
  ghost function Project(c: Cycle, e: Event, cancelled: bool): Cycle
    requires InRange(c)
  {
    if e.Compacted? then (if e.parent == Top && !c.replay then Compact(c) else c)
    else if cancelled then c
    else if e.Assistant? then ProjectAssistant(c, e)
    else if c.replay then c
    else ProjectStream(c, e)
  }

  datatype Input = Input(event: Event, cancelled: bool)

  lemma StartKeepsRange(c: Cycle, parent: Parent)
    requires InRange(c)
    ensures InRange(StartMessage(c, parent))
  {
    forall key: Key ensures Used(StartMessage(c, parent), key) <= |Streamed(StartMessage(c, parent), key)| {
      assert Used(c, key) <= |Streamed(c, key)|;
    }
  }

  lemma StreamKeepsRange(c: Cycle, key: Key, text: Bytes)
    requires InRange(c)
    ensures InRange(Stream(c, key, text))
  {
    forall k: Key ensures Used(Stream(c, key, text), k) <= |Streamed(Stream(c, key, text), k)| {
      assert Used(c, k) <= |Streamed(c, k)|;
    }
  }

  lemma SameTextInRange(c: Cycle, d: Cycle)
    requires InRange(c) && d.messages == c.messages && d.streams == c.streams
    ensures InRange(d)
  {
    forall key: Key ensures Used(d, key) <= |Streamed(d, key)| {
      assert Used(c, key) <= |Streamed(c, key)|;
    }
  }

  lemma AssistantInRange(c: Cycle, e: Event)
    requires InRange(c) && e.Assistant?
    ensures InRange(ProjectAssistant(c, e))
  {
    var m := MessageOf(c, e.parent);
    if !AlreadyShown(m, c.replay, e.id, e.row) {
      var d := c.(messages := c.messages[e.parent := Finalize(m, c.replay, e.id, e.row)]);
      KeepsRange(c, d, e.parent);
      SameTextInRange(ConsumeAll(d, e.parent, e.blocks),
                      RecordCall(ConsumeAll(d, e.parent, e.blocks), e.parent, e.id, e.synthetic, e.usage));
    }
  }

  lemma ProjectInRange(c: Cycle, e: Event, cancelled: bool)
    requires InRange(c)
    ensures InRange(Project(c, e, cancelled))
  {
    match e {
      case Assistant(_, _, _, _, _, _) => AssistantInRange(c, e);
      case MessageStart(parent, message) =>
        StartKeepsRange(c, parent);
        SameTextInRange(StartMessage(c, parent), ProjectStream(c, e));
      case Delta(parent, kind, text) => StreamKeepsRange(c, Key(parent, kind), text);
      case MessageDelta(_, usage) => SameTextInRange(c, ProjectStream(c, e));
      case Compacted(_) => SameTextInRange(c, Compact(c));
    }
  }

  ghost function Run(c: Cycle, inputs: seq<Input>): (d: Cycle)
    requires InRange(c)
    ensures InRange(d)
  {
    if inputs == [] then c
    else
      var before := Run(c, inputs[..|inputs| - 1]);
      var last := inputs[|inputs| - 1];
      ProjectInRange(before, last.event, last.cancelled);
      Project(before, last.event, last.cancelled)
  }
}
