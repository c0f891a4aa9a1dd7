/** Each streamed byte is shown once, live and replayed text agree, and context usage follows the last figure. */
module ProjectionTheorems {
  import opened Options
  import opened Projection

  /******* Text since the last message_start *******/

  /** All the text of one parent and kind a host was sent. */
  function Shown(sent: seq<Update>, key: Key): Bytes {
    if sent == [] then []
    else
      var u := sent[|sent| - 1];
      Shown(sent[..|sent| - 1], key) + (if u.Chunk? && Key(u.parent, u.kind) == key then u.text else [])
  }

  /** One parent and kind of a cycle: its stream, its place in it, its ledger and what it was sent. */
  datatype View = View(text: Bytes, used: nat, ledger: Ledger, shown: Bytes)

  function ViewOf(c: Cycle, key: Key): View {
    View(Streamed(c, key), Used(c, key), LedgerOf(c, key), Shown(c.sent, key))
  }

  function TailOf(v: View): Bytes {
    if v.used <= |v.text| then v.text[v.used..] else []
  }

  /** What was shown since the last message_start is the matched blocks, then the tail still unmatched. */
  predicate Sound(v: View) {
    && v.used <= |v.text|
    && v.ledger.shown == v.ledger.matched + TailOf(v)
    && v.shown == v.ledger.before + v.ledger.shown
    && (v.ledger.clean ==> v.ledger.before + v.ledger.matched == v.ledger.offered)
  }

  function CutView(v: View): View {
    View([], 0, Cut(v.ledger, TailOf(v)), v.shown)
  }

  function StreamView(v: View, text: Bytes): View {
    View(v.text + text, v.used, v.ledger.(shown := v.ledger.shown + text), v.shown + text)
  }

  function ConsumeView(v: View, full: Bytes): View
    requires v.used <= |v.text|
  {
    if full == [] then v
    else
      var m := MatchBlock(v.text, v.used, full);
      var ledger := Book(v.ledger, m, full);
      if !m.matched then v.(ledger := ledger)
      else if m.used == |v.text| then View([], 0, ledger, v.shown + m.suffix)
      else View(v.text, m.used, ledger, v.shown + m.suffix)
  }

  lemma CutSound(v: View)
    requires Sound(v)
    ensures Sound(CutView(v))
  {
  }

  lemma StreamSound(v: View, text: Bytes)
    requires Sound(v)
    ensures Sound(StreamView(v, text))
  {
  }

  lemma Assoc(a: Bytes, b: Bytes, c: Bytes)
    ensures (a + b) + c == a + (b + c) && a + [] == a
  {
  }

  /** What one block does to the tail: eats its front, or ends it. */
  lemma MatchEats(text: Bytes, used: nat, full: Bytes)
    requires used <= |text|
    ensures var m := MatchBlock(text, used, full);
            && m.used <= |text|
            && (m.matched ==> full + text[m.used..] == text[used..] + m.suffix)
  {
    var pending := text[used..];
    if full <= pending {
      assert pending == full + pending[|full|..];
      assert text[used + |full|..] == pending[|full|..];
    } else if pending <= full {
      assert full == pending + full[|pending|..];
    }
  }

  lemma Regroup(matched: Bytes, tail: Bytes, suffix: Bytes, full: Bytes, rest: Bytes, before: Bytes)
    requires full + rest == tail + suffix
    ensures (matched + tail) + suffix == (matched + full) + rest
    ensures (before + (matched + tail)) + suffix == before + ((matched + tail) + suffix)
    ensures before + (matched + full) == (before + matched) + full
  {
    assert (matched + tail) + suffix == matched + (tail + suffix);
    assert (matched + full) + rest == matched + (full + rest);
  }

  lemma ConsumeSound(v: View, full: Bytes)
    requires Sound(v)
    ensures Sound(ConsumeView(v, full))
    ensures ConsumeView(v, full).ledger.offered == v.ledger.offered + full
  {
    if full != [] {
      var m := MatchBlock(v.text, v.used, full);
      MatchEats(v.text, v.used, full);
      if m.matched {
        Regroup(v.ledger.matched, TailOf(v), m.suffix, full, v.text[m.used..], v.ledger.before);
        assert TailOf(ConsumeView(v, full)) == v.text[m.used..];
      }
    }
  }

  /******* A cycle seen through its views *******/

  lemma StartSeen(c: Cycle, parent: Parent, key: Key)
    ensures ViewOf(StartMessage(c, parent), key) == if key.parent == parent then CutView(ViewOf(c, key)) else ViewOf(c, key)
  {
    match key.kind {
      case Text =>
      case Thinking =>
    }
  }

  lemma StreamSeen(c: Cycle, at: Key, text: Bytes, key: Key)
    ensures ViewOf(Stream(c, at, text), key) == if key == at then StreamView(ViewOf(c, key), text) else ViewOf(c, key)
  {
  }

  lemma SettleSeen(c: Cycle, at: Key, m: Match, key: Key)
    ensures var d := Settle(c, at, m);
            && d.sent == c.sent && d.ledgers == c.ledgers
            && Streamed(d, key) == (if key == at && m.used == |Streamed(c, at)| then [] else Streamed(c, key))
            && Used(d, key) == (if key != at then Used(c, key) else if m.used == |Streamed(c, at)| then 0 else m.used)
  {
  }

  /** The cycle with the block in its books. */
  function Booked(c: Cycle, at: Key, full: Bytes): Cycle
    requires Used(c, at) <= |Streamed(c, at)|
  {
    c.(ledgers := c.ledgers[at := Book(LedgerOf(c, at), MatchBlock(Streamed(c, at), Used(c, at), full), full)])
  }

  lemma ConsumesOwn(c: Cycle, key: Key, full: Bytes)
    requires full != [] && Used(c, key) <= |Streamed(c, key)|
    ensures var v := ConsumeView(ViewOf(c, key), full);
            var d := Consume(c, key, full);
            Streamed(d, key) == v.text && Used(d, key) == v.used && LedgerOf(d, key) == v.ledger
    ensures var m := MatchBlock(Streamed(c, key), Used(c, key), full);
            Consume(c, key, full).sent == if m.matched && m.suffix != [] then c.sent + [Chunk(key.parent, key.kind, m.suffix)] else c.sent
  {
    SettleSeen(Booked(c, key, full), key, MatchBlock(Streamed(c, key), Used(c, key), full), key);
  }

  lemma ConsumesOther(c: Cycle, at: Key, full: Bytes, key: Key)
    requires full != [] && Used(c, at) <= |Streamed(c, at)| && key != at
    ensures var d := Consume(c, at, full);
            Streamed(d, key) == Streamed(c, key) && Used(d, key) == Used(c, key) && LedgerOf(d, key) == LedgerOf(c, key)
    ensures var m := MatchBlock(Streamed(c, at), Used(c, at), full);
            Consume(c, at, full).sent == if m.matched && m.suffix != [] then c.sent + [Chunk(at.parent, at.kind, m.suffix)] else c.sent
  {
    SettleSeen(Booked(c, at, full), at, MatchBlock(Streamed(c, at), Used(c, at), full), key);
  }

  lemma ConsumeSeen(c: Cycle, at: Key, full: Bytes, key: Key)
    requires Used(c, at) <= |Streamed(c, at)|
    ensures ViewOf(Consume(c, at, full), key) == if key == at then ConsumeView(ViewOf(c, key), full) else ViewOf(c, key)
  {
    if full != [] {
      var m := MatchBlock(Streamed(c, at), Used(c, at), full);
      if key == at { ConsumesOwn(c, at, full); } else { ConsumesOther(c, at, full, key); }
      ShownAfter(c.sent, Consume(c, at, full).sent, at, m, key);
    }
  }

  lemma ShownAfter(before: seq<Update>, after: seq<Update>, at: Key, m: Match, key: Key)
    requires after == if m.matched && m.suffix != [] then before + [Chunk(at.parent, at.kind, m.suffix)] else before
    ensures Shown(after, key) == if m.matched && key == at then Shown(before, key) + m.suffix else Shown(before, key)
  {
  }

  /** The text of one kind the blocks of a row hold. */
  function TextOf(blocks: seq<Block>, kind: Kind): Bytes {
    if blocks == [] then []
    else
      var b := blocks[|blocks| - 1];
      TextOf(blocks[..|blocks| - 1], kind) + (if b.Prose? && b.kind == kind then b.text else [])
  }

  /** One more block of a row. */
  lemma ConsumeOneSound(d: Cycle, parent: Parent, b: Block, key: Key)
    requires InRange(d) && Sound(ViewOf(d, key)) && b.Prose?
    ensures var c := Consume(d, Key(parent, b.kind), b.text);
            && Sound(ViewOf(c, key))
            && LedgerOf(c, key).offered == LedgerOf(d, key).offered + if key == Key(parent, b.kind) then b.text else []
  {
    assert Used(d, Key(parent, b.kind)) <= |Streamed(d, Key(parent, b.kind))|;
    ConsumeSeen(d, Key(parent, b.kind), b.text, key);
    ConsumeSound(ViewOf(d, key), b.text);
    assert LedgerOf(Consume(d, Key(parent, b.kind), b.text), key) == ViewOf(Consume(d, Key(parent, b.kind), b.text), key).ledger;
  }

  lemma {:induction false} ConsumeAllSound(c: Cycle, parent: Parent, blocks: seq<Block>, key: Key)
    requires InRange(c) && Sound(ViewOf(c, key))
    ensures Sound(ViewOf(ConsumeAll(c, parent, blocks), key))
    ensures LedgerOf(ConsumeAll(c, parent, blocks), key).offered
            == LedgerOf(c, key).offered + if key.parent == parent then TextOf(blocks, key.kind) else []
    decreases |blocks|
  {
    if blocks == [] {
      Assoc(LedgerOf(c, key).offered, [], []);
    } else {
      var head := blocks[..|blocks| - 1];
      var d := ConsumeAll(c, parent, head);
      var b := blocks[|blocks| - 1];
      ConsumeAllSound(c, parent, head, key);
      if b.Prose? {
        ConsumeOneSound(d, parent, b, key);
        Assoc(LedgerOf(c, key).offered, TextOf(head, key.kind), b.text);
      }
      Assoc(TextOf(head, key.kind), [], []);
      Assoc(LedgerOf(d, key).offered, [], []);
    }
  }

  /** Usage figures and compactions show no text. */
  lemma OtherUpdateShowsNothing(sent: seq<Update>, u: Update, key: Key)
    requires !u.Chunk?
    ensures Shown(sent + [u], key) == Shown(sent, key)
  {
  }

  lemma EmitSeen(c: Cycle, used: int, origin: Origin, key: Key)
    ensures ViewOf(EmitContext(c, used, origin), key) == ViewOf(c, key)
  {
  }

  lemma OpenSeen(c: Cycle, o: Opening, key: Key)
    ensures ViewOf(OpenCall(c, o), key) == ViewOf(c, key)
  {
    var start := if Known(o.usage) then o.usage else NOTHING;
    EmitSeen(c.(call := o.id, callStart := start, callOpen := true), RequestTokens(start), Request, key);
  }

  lemma CloseSeen(c: Cycle, usage: Figures, key: Key)
    ensures ViewOf(CloseCall(c, usage), key) == ViewOf(c, key)
  {
    var figures := ResponseUsage(c.callStart, usage);
    var closed := c.(callOpen := false);
    assert ViewOf(closed, key) == ViewOf(c, key);
    EmitSeen(closed, RequestTokens(figures) + Tokens(figures.output), CallEnd(c.call, figures), key);
  }

  lemma RecordSeen(c: Cycle, parent: Parent, id: Id, synthetic: bool, usage: Figures, key: Key)
    ensures ViewOf(RecordCall(c, parent, id, synthetic, usage), key) == ViewOf(c, key)
  {
  }

  lemma StartEventSeen(c: Cycle, e: Event, key: Key)
    requires e.MessageStart?
    ensures ViewOf(ProjectStream(c, e), key) == if key.parent == e.parent then CutView(ViewOf(c, key)) else ViewOf(c, key)
  {
    StartSeen(c, e.parent, key);
    if e.message.Some? { OpenSeen(StartMessage(c, e.parent), e.message.value, key); }
  }

  lemma StartEventSound(c: Cycle, e: Event, key: Key)
    requires Sound(ViewOf(c, key)) && e.MessageStart?
    ensures Sound(ViewOf(ProjectStream(c, e), key))
    ensures ViewOf(ProjectStream(c, e), key).ledger.offered == ViewOf(c, key).ledger.offered
  {
    StartEventSeen(c, e, key);
    CutSound(ViewOf(c, key));
  }

  lemma StreamEventSound(c: Cycle, e: Event, key: Key)
    requires Sound(ViewOf(c, key)) && !e.Assistant? && !e.Compacted?
    ensures Sound(ViewOf(ProjectStream(c, e), key))
    ensures ViewOf(ProjectStream(c, e), key).ledger.offered == ViewOf(c, key).ledger.offered
  {
    match e {
      case MessageStart(_, _) => StartEventSound(c, e, key);
      case Delta(parent, kind, text) =>
        StreamSeen(c, Key(parent, kind), text, key);
        StreamSound(ViewOf(c, key), text);
      case MessageDelta(_, usage) => CloseSeen(c, usage, key);
    }
  }

  /** The row's text is offered to the match unless it was already shown. */
  function Offers(c: Cycle, e: Event, cancelled: bool, key: Key): Bytes {
    if e.Assistant? && !cancelled && e.parent == key.parent && !AlreadyShown(MessageOf(c, e.parent), c.replay, e.id, e.row)
    then TextOf(e.blocks, key.kind) else []
  }

  lemma ProjectSound(c: Cycle, e: Event, cancelled: bool, key: Key)
    requires InRange(c) && Sound(ViewOf(c, key))
    ensures Sound(ViewOf(Project(c, e, cancelled), key))
    ensures LedgerOf(Project(c, e, cancelled), key).offered == LedgerOf(c, key).offered + Offers(c, e, cancelled, key)
  {
    Assoc(LedgerOf(c, key).offered, [], []);
    if e.Compacted? {
      OtherUpdateShowsNothing(c.sent, Compaction, key);
      assert ViewOf(Project(c, e, cancelled), key) == ViewOf(c, key);
    } else if cancelled {
      assert Project(c, e, cancelled) == c;
    } else if e.Assistant? {
      AssistantSound(c, e, key);
    } else if !c.replay {
      StreamEventSound(c, e, key);
      assert LedgerOf(ProjectStream(c, e), key) == ViewOf(ProjectStream(c, e), key).ledger;
    }
  }

  lemma AssistantSound(c: Cycle, e: Event, key: Key)
    requires InRange(c) && Sound(ViewOf(c, key)) && e.Assistant?
    ensures Sound(ViewOf(ProjectAssistant(c, e), key))
    ensures LedgerOf(ProjectAssistant(c, e), key).offered == LedgerOf(c, key).offered + Offers(c, e, false, key)
  {
    var m := MessageOf(c, e.parent);
    if !AlreadyShown(m, c.replay, e.id, e.row) {
      var d := c.(messages := c.messages[e.parent := Finalize(m, c.replay, e.id, e.row)]);
      KeepsRange(c, d, e.parent);
      assert ViewOf(d, key) == ViewOf(c, key);
      ConsumeAllSound(d, e.parent, e.blocks, key);
      RecordSeen(ConsumeAll(d, e.parent, e.blocks), e.parent, e.id, e.synthetic, e.usage, key);
      assert LedgerOf(ProjectAssistant(c, e), key) == ViewOf(ProjectAssistant(c, e), key).ledger;
    }
  }

  /** Over any input, live or replayed: what was shown since the last message_start is the matched blocks and then the
      unmatched tail, with the used index in range, so each byte of a matched block is shown once. */
  lemma {:induction false} ShownIsMatchedThenTail(replay: bool, inputs: seq<Input>, key: Key)
    ensures InRange(Opened(replay)) && Sound(ViewOf(Run(Opened(replay), inputs), key))
    decreases |inputs|
  {
    assert InRange(Opened(replay));
    if inputs != [] {
      var last := inputs[|inputs| - 1];
      ShownIsMatchedThenTail(replay, inputs[..|inputs| - 1], key);
      ProjectSound(Run(Opened(replay), inputs[..|inputs| - 1]), last.event, last.cancelled, key);
    }
  }

  /******* The live stream and its replay *******/

  /** The rows of one parent a cycle has already emitted. */
  function Emitted(c: Cycle, parent: Parent): set<Id> {
    MessageOf(c, parent).finalized
  }

  /** Nothing has been streamed: every block offered has been shown. */
  predicate Silent(c: Cycle, key: Key) {
    Streamed(c, key) == [] && Used(c, key) == 0 && LedgerOf(c, key).before == [] && LedgerOf(c, key).clean
  }

  lemma ConsumeSilent(c: Cycle, at: Key, full: Bytes, key: Key)
    requires InRange(c) && Silent(c, key) && Silent(c, at)
    ensures Silent(Consume(c, at, full), key) && Silent(Consume(c, at, full), at)
    ensures forall p :: Emitted(Consume(c, at, full), p) == Emitted(c, p)
  {
    if full != [] {
      ConsumesOwn(c, at, full);
      if key != at { ConsumesOther(c, at, full, key); }
    }
  }

  lemma {:induction false} ConsumeAllRows(c: Cycle, parent: Parent, blocks: seq<Block>, p: Parent)
    requires InRange(c)
    ensures var d := ConsumeAll(c, parent, blocks);
            d.replay == c.replay && MessageOf(d, p).rows == MessageOf(c, p).rows && Emitted(d, p) == Emitted(c, p)
    decreases |blocks|
  {
    if blocks != [] {
      var d := ConsumeAll(c, parent, blocks[..|blocks| - 1]);
      var b := blocks[|blocks| - 1];
      ConsumeAllRows(c, parent, blocks[..|blocks| - 1], p);
      if b.Prose? { ConsumeRows(d, Key(parent, b.kind), b.text, p); }
    }
  }

  lemma ConsumeRows(c: Cycle, at: Key, full: Bytes, p: Parent)
    requires Used(c, at) <= |Streamed(c, at)|
    ensures var d := Consume(c, at, full);
            d.replay == c.replay && MessageOf(d, p).rows == MessageOf(c, p).rows && Emitted(d, p) == Emitted(c, p)
  {
    if full != [] { SettleRows(Booked(c, at, full), at, MatchBlock(Streamed(c, at), Used(c, at), full), p); }
  }

  lemma SettleRows(c: Cycle, at: Key, m: Match, p: Parent)
    ensures var d := Settle(c, at, m);
            d.replay == c.replay && MessageOf(d, p).rows == MessageOf(c, p).rows && Emitted(d, p) == Emitted(c, p)
  {
  }

  lemma StartRows(c: Cycle, parent: Parent, p: Parent)
    ensures var d := StartMessage(c, parent);
            d.replay == c.replay && MessageOf(d, p).rows == MessageOf(c, p).rows && Emitted(d, p) == Emitted(c, p)
  {
  }

  lemma OpenRows(c: Cycle, o: Opening)
    ensures OpenCall(c, o).replay == c.replay && OpenCall(c, o).messages == c.messages
  {
  }

  lemma CloseRows(c: Cycle, usage: Figures)
    ensures CloseCall(c, usage).replay == c.replay && CloseCall(c, usage).messages == c.messages
  {
  }

  lemma StreamRows(c: Cycle, e: Event, p: Parent)
    requires !e.Assistant? && !e.Compacted?
    ensures var d := ProjectStream(c, e);
            d.replay == c.replay && MessageOf(d, p).rows == MessageOf(c, p).rows && Emitted(d, p) == Emitted(c, p)
  {
    match e {
      case MessageStart(parent, message) =>
        StartRows(c, parent, p);
        if message.Some? { OpenRows(StartMessage(c, parent), message.value); }
      case Delta(_, _, _) =>
      case MessageDelta(_, usage) => CloseRows(c, usage);
    }
  }

  /** How one input moves the row bookkeeping of a parent. */
  lemma ProjectRows(c: Cycle, e: Event, p: Parent)
    requires InRange(c)
    ensures var d := Project(c, e, false);
            var m := MessageOf(c, p);
            var moved := if e.Assistant? && e.parent == p && !AlreadyShown(m, c.replay, e.id, e.row)
                         then Finalize(m, c.replay, e.id, e.row) else m;
            d.replay == c.replay && MessageOf(d, p).rows == moved.rows && Emitted(d, p) == moved.finalized
  {
    if e.Assistant? {
      AssistantRows(c, e, p);
    } else if !e.Compacted? {
      StreamRows(c, e, p);
    }
  }

  lemma AssistantRows(c: Cycle, e: Event, p: Parent)
    requires InRange(c) && e.Assistant?
    ensures var d := ProjectAssistant(c, e);
            var m := MessageOf(c, p);
            var moved := if e.parent == p && !AlreadyShown(m, c.replay, e.id, e.row) then Finalize(m, c.replay, e.id, e.row) else m;
            d.replay == c.replay && MessageOf(d, p).rows == moved.rows && Emitted(d, p) == moved.finalized
  {
    var m := MessageOf(c, e.parent);
    if !AlreadyShown(m, c.replay, e.id, e.row) {
      var d := c.(messages := c.messages[e.parent := Finalize(m, c.replay, e.id, e.row)]);
      KeepsRange(c, d, e.parent);
      ConsumeAllRows(d, e.parent, e.blocks, p);
      RecordRows(ConsumeAll(d, e.parent, e.blocks), e);
    }
  }

  lemma RecordRows(c: Cycle, e: Event)
    requires e.Assistant?
    ensures var d := RecordCall(c, e.parent, e.id, e.synthetic, e.usage); d.replay == c.replay && d.messages == c.messages
  {
  }

  lemma {:induction false} ConsumeAllSilent(c: Cycle, parent: Parent, blocks: seq<Block>)
    requires InRange(c) && forall key :: Silent(c, key)
    ensures forall key :: Silent(ConsumeAll(c, parent, blocks), key)
    decreases |blocks|
  {
    if blocks != [] {
      var d := ConsumeAll(c, parent, blocks[..|blocks| - 1]);
      var b := blocks[|blocks| - 1];
      ConsumeAllSilent(c, parent, blocks[..|blocks| - 1]);
      if b.Prose? {
        forall key ensures Silent(Consume(d, Key(parent, b.kind), b.text), key) {
          assert Silent(d, key) && Silent(d, Key(parent, b.kind));
          ConsumeSilent(d, Key(parent, b.kind), b.text, key);
        }
      }
    }
  }

  lemma ProjectSilent(c: Cycle, e: Event)
    requires InRange(c) && (c.replay || e.Assistant?) && forall key :: Silent(c, key)
    ensures forall key :: Silent(Project(c, e, false), key)
  {
    if e.Assistant? {
      var m := MessageOf(c, e.parent);
      if !AlreadyShown(m, c.replay, e.id, e.row) {
        var d := c.(messages := c.messages[e.parent := Finalize(m, c.replay, e.id, e.row)]);
        KeepsRange(c, d, e.parent);
        forall key ensures Silent(d, key) { assert Silent(c, key); }
        ConsumeAllSilent(d, e.parent, e.blocks);
        forall key ensures Silent(Project(c, e, false), key) {
          assert Silent(ConsumeAll(d, e.parent, e.blocks), key);
          RecordSilent(ConsumeAll(d, e.parent, e.blocks), e, key);
        }
      }
    } else {
      forall key ensures Silent(Project(c, e, false), key) { assert Silent(c, key); }
    }
  }

  lemma RecordSilent(c: Cycle, e: Event, key: Key)
    requires e.Assistant? && Silent(c, key)
    ensures Silent(RecordCall(c, e.parent, e.id, e.synthetic, e.usage), key)
  {
  }

  function Uncancelled(events: seq<Event>): seq<Input> {
    seq(|events|, i requires 0 <= i < |events| => Input(events[i], false))
  }

  ghost function Live(events: seq<Event>): Cycle {
    OpenedInRange(false);
    Run(Opened(false), Uncancelled(events))
  }

  /** The replay of the same rows. */
  ghost function Replayed(events: seq<Event>): Cycle {
    OpenedInRange(true);
    Run(Opened(true), Uncancelled(events))
  }

  lemma OpenedInRange(replay: bool)
    ensures InRange(Opened(replay))
  {
  }

  lemma RunSnoc(replay: bool, events: seq<Event>)
    requires events != [] && InRange(Opened(replay))
    ensures InRange(Run(Opened(replay), Uncancelled(events[..|events| - 1])))
    ensures Run(Opened(replay), Uncancelled(events))
            == Project(Run(Opened(replay), Uncancelled(events[..|events| - 1])), events[|events| - 1], false)
  {
    var inputs := Uncancelled(events);
    assert inputs[..|inputs| - 1] == Uncancelled(events[..|events| - 1]);
  }

  lemma {:induction false} RowsSilent(events: seq<Event>)
    requires forall i :: 0 <= i < |events| ==> events[i].Assistant?
    ensures forall key :: Silent(Live(events), key)
    decreases |events|
  {
    OpenedInRange(false);
    if events != [] {
      RowsSilent(events[..|events| - 1]);
      RunSnoc(false, events);
      ProjectSilent(Live(events[..|events| - 1]), events[|events| - 1]);
    }
  }

  lemma {:induction false} ReplayedSilent(events: seq<Event>)
    ensures Replayed(events).replay && forall key :: Silent(Replayed(events), key)
    decreases |events|
  {
    OpenedInRange(true);
    if events != [] {
      ReplayedSilent(events[..|events| - 1]);
      RunSnoc(true, events);
      ProjectSilent(Replayed(events[..|events| - 1]), events[|events| - 1]);
      ProjectRows(Replayed(events[..|events| - 1]), events[|events| - 1], Top);
    }
  }

  /******* What each side remembers of the rows *******/

  predicate IsRow(e: Event, parent: Parent) {
    e.Assistant? && e.parent == parent
  }

  predicate IsRowOf(e: Event, parent: Parent, row: Id) {
    IsRow(e, parent) && e.row.Some? && e.row == row
  }

  /** The API message of the parent's last row. */
  function LastId(events: seq<Event>, parent: Parent): Id {
    if events == [] then None
    else if IsRow(events[|events| - 1], parent) then events[|events| - 1].id
    else LastId(events[..|events| - 1], parent)
  }

  /** From i to the end the parent's rows belong to one API message. */
  ghost predicate OneMessage(events: seq<Event>, parent: Parent, i: nat, id: Id) {
    forall k :: i <= k < |events| && IsRow(events[k], parent) ==> events[k].id == id
  }

  /** The row came before. */
  ghost predicate Came(events: seq<Event>, parent: Parent, row: Id) {
    exists i :: 0 <= i < |events| && IsRowOf(events[i], parent, row)
  }

  /** The row came before in the API message with this id, and no row of another one since. */
  ghost predicate CameInMessage(events: seq<Event>, parent: Parent, row: Id, id: Id) {
    exists i :: 0 <= i < |events| && IsRowOf(events[i], parent, row) && OneMessage(events, parent, i, id)
  }

  lemma LastIdLater(events: seq<Event>, parent: Parent, i: nat, id: Id)
    requires i < |events| && IsRow(events[i], parent) && OneMessage(events, parent, i, id)
    ensures LastId(events, parent) == id
  {
    if IsRow(events[|events| - 1], parent) {
      assert events[|events| - 1].id == id;
    } else {
      assert OneMessage(events[..|events| - 1], parent, i, id);
      LastIdLater(events[..|events| - 1], parent, i, id);
    }
  }

  lemma CameSnoc(events: seq<Event>, parent: Parent, row: Id)
    requires events != []
    ensures Came(events, parent, row) <==>
            Came(events[..|events| - 1], parent, row) || IsRowOf(events[|events| - 1], parent, row)
  {
    var head, last := events[..|events| - 1], events[|events| - 1];
    if Came(head, parent, row) {
      var i :| 0 <= i < |head| && IsRowOf(head[i], parent, row);
      assert IsRowOf(events[i], parent, row);
    }
    if Came(events, parent, row) && !IsRowOf(last, parent, row) {
      var i :| 0 <= i < |events| && IsRowOf(events[i], parent, row);
      assert IsRowOf(head[i], parent, row);
    }
    assert events[|events| - 1] == last;
  }

  lemma CameInMessageSnoc(events: seq<Event>, parent: Parent, row: Id, id: Id)
    requires events != []
    ensures var head, last := events[..|events| - 1], events[|events| - 1];
            CameInMessage(events, parent, row, id) <==>
              && (IsRow(last, parent) ==> last.id == id)
              && (CameInMessage(head, parent, row, id) || IsRowOf(last, parent, row))
  {
    var head, last := events[..|events| - 1], events[|events| - 1];
    if CameInMessage(head, parent, row, id) && (IsRow(last, parent) ==> last.id == id) {
      var i :| 0 <= i < |head| && IsRowOf(head[i], parent, row) && OneMessage(head, parent, i, id);
      forall k | i <= k < |events| && IsRow(events[k], parent) ensures events[k].id == id {
        if k < |head| { assert head[k] == events[k]; }
      }
      assert IsRowOf(events[i], parent, row) && OneMessage(events, parent, i, id);
    }
    if IsRowOf(last, parent, row) && last.id == id {
      assert IsRowOf(events[|events| - 1], parent, row) && OneMessage(events, parent, |events| - 1, id);
    }
    if CameInMessage(events, parent, row, id) {
      var i :| 0 <= i < |events| && IsRowOf(events[i], parent, row) && OneMessage(events, parent, i, id);
      if i < |head| { assert IsRowOf(head[i], parent, row) && OneMessage(head, parent, i, id); }
    }
  }

  /** Replay remembers exactly the rows that came. */
  lemma {:induction false} ReplayRemembers(events: seq<Event>, p: Parent, row: Id)
    ensures Replayed(events).replay && (row in Emitted(Replayed(events), p) <==> Came(events, p, row))
    decreases |events|
  {
    OpenedInRange(true);
    if events != [] {
      var head, last := events[..|events| - 1], events[|events| - 1];
      ReplayRemembers(head, p, row);
      RunSnoc(true, events);
      ProjectRows(Replayed(head), last, p);
      CameSnoc(events, p, row);
    }
  }

  /** The live stream remembers exactly the rows of the parent's last API message. */
  lemma {:induction false} LiveRemembers(events: seq<Event>, p: Parent, row: Id)
    ensures !Live(events).replay && MessageOf(Live(events), p).rows == LastId(events, p)
    ensures row in Emitted(Live(events), p) <==> CameInMessage(events, p, row, LastId(events, p))
    decreases |events|
  {
    OpenedInRange(false);
    if events != [] {
      var head, last := events[..|events| - 1], events[|events| - 1];
      LiveRemembers(head, p, row);
      RunSnoc(false, events);
      ProjectRows(Live(head), last, p);
      CameInMessageSnoc(events, p, row, LastId(events, p));
      if IsRow(last, p) {
        if last.id != LastId(head, p) { LiveRemembersRow(head, last, p, row); }
        if last.row.Some? { LiveRemembers(head, p, last.row); }
      }
    }
  }

  /** A row of another message than the last follows none of its own. */
  lemma LiveRemembersRow(head: seq<Event>, last: Event, p: Parent, row: Id)
    requires IsRow(last, p) && last.id != LastId(head, p)
    ensures !CameInMessage(head, p, row, last.id)
  {
    if CameInMessage(head, p, row, last.id) {
      var i :| 0 <= i < |head| && IsRowOf(head[i], p, row) && OneMessage(head, p, i, last.id);
      LastIdLater(head, p, i, last.id);
    }
  }

  /** The row at j came before, but not since the last row of another API message: the live stream has forgotten it. */
  ghost predicate Forgotten(events: seq<Event>, parent: Parent, j: nat) {
    && j < |events| && IsRow(events[j], parent)
    && Came(events[..j], parent, events[j].row)
    && !CameInMessage(events[..j], parent, events[j].row, events[j].id)
  }

  /** Some forgotten row comes again, with text of this kind. */
  ghost predicate ComesAgain(events: seq<Event>, key: Key) {
    exists j :: 0 <= j < |events| && Forgotten(events, key.parent, j) && TextOf(events[j].blocks, key.kind) != []
  }

  lemma ComesAgainSnoc(events: seq<Event>, key: Key)
    requires events != []
    ensures var head, last := events[..|events| - 1], events[|events| - 1];
            ComesAgain(events, key) <==>
              ComesAgain(head, key) || (Forgotten(events, key.parent, |events| - 1) && TextOf(last.blocks, key.kind) != [])
  {
    var head := events[..|events| - 1];
    forall j | 0 <= j < |head| ensures Forgotten(events, key.parent, j) <==> Forgotten(head, key.parent, j) {
      assert head[..j] == events[..j];
    }
    if ComesAgain(head, key) {
      var j :| 0 <= j < |head| && Forgotten(head, key.parent, j) && TextOf(head[j].blocks, key.kind) != [];
      assert Forgotten(events, key.parent, j) && TextOf(events[j].blocks, key.kind) != [];
    }
    if ComesAgain(events, key) {
      var j :| 0 <= j < |events| && Forgotten(events, key.parent, j) && TextOf(events[j].blocks, key.kind) != [];
      if j < |head| { assert Forgotten(head, key.parent, j) && TextOf(head[j].blocks, key.kind) != []; }
    }
  }

  /** What each side offers of the last row: replay unless it came before, live unless it came in its own message. */
  lemma OffersExactly(events: seq<Event>, key: Key)
    requires events != []
    ensures var head, last := events[..|events| - 1], events[|events| - 1];
            && Offers(Replayed(head), last, false, key) ==
                 (if IsRow(last, key.parent) && !Came(head, key.parent, last.row) then TextOf(last.blocks, key.kind) else [])
            && Offers(Live(head), last, false, key) ==
                 (if IsRow(last, key.parent) && !CameInMessage(head, key.parent, last.row, last.id)
                  then TextOf(last.blocks, key.kind) else [])
  {
    var head, last := events[..|events| - 1], events[|events| - 1];
    if IsRow(last, key.parent) {
      ReplayRemembers(head, key.parent, last.row);
      LiveRemembers(head, key.parent, last.row);
      if last.id != LastId(head, key.parent) { LiveRemembersRow(head, last, key.parent, last.row); }
    }
  }

  lemma {:induction false} OfferedCompare(events: seq<Event>, key: Key)
    ensures var live := LedgerOf(Live(events), key).offered;
            var replayed := LedgerOf(Replayed(events), key).offered;
            if ComesAgain(events, key) then |live| > |replayed| else live == replayed
    decreases |events|
  {
    OpenedInRange(true);
    OpenedInRange(false);
    if events != [] {
      var head, last := events[..|events| - 1], events[|events| - 1];
      OfferedCompare(head, key);
      RunSnoc(true, events);
      RunSnoc(false, events);
      ShownIsMatchedThenTail(false, Uncancelled(head), key);
      ShownIsMatchedThenTail(true, Uncancelled(head), key);
      ProjectSound(Live(head), last, false, key);
      ProjectSound(Replayed(head), last, false, key);
      OffersExactly(events, key);
      ComesAgainSnoc(events, key);
      if IsRow(last, key.parent) && CameInMessage(head, key.parent, last.row, last.id) { CameInMessageCame(head, key.parent, last); }
    }
  }

  lemma CameInMessageCame(events: seq<Event>, parent: Parent, e: Event)
    requires e.Assistant? && CameInMessage(events, parent, e.row, e.id)
    ensures Came(events, parent, e.row)
  {
  }

  /** Where every block matched and no streamed tail was left, at any message_start or at the end, the live text equals
      the replayed text if and only if no row came again, with text of that kind, after a row of another API message. */
  lemma LiveAgreesWithReplay(events: seq<Event>, key: Key)
    requires LedgerOf(Live(events), key).clean && Tail(Live(events), key) == []
    ensures Shown(Live(events).sent, key) == Shown(Replayed(events).sent, key) <==> !ComesAgain(events, key)
  {
    ShownIsMatchedThenTail(false, Uncancelled(events), key);
    ShownIsMatchedThenTail(true, Uncancelled(events), key);
    ReplayedSilent(events);
    assert Silent(Replayed(events), key);
    OfferedCompare(events, key);
    ShowsOffered(ViewOf(Live(events), key));
    ShowsOffered(ViewOf(Replayed(events), key));
  }

  lemma ShowsOffered(v: View)
    requires Sound(v) && v.ledger.clean && TailOf(v) == []
    ensures v.shown == v.ledger.offered
  {
  }

  lemma LiveStep(events: seq<Event>, e: Event, key: Key)
    requires e.Assistant?
    ensures LedgerOf(Live(events + [e]), key).offered == LedgerOf(Live(events), key).offered + Offers(Live(events), e, false, key)
    ensures var m := MessageOf(Live(events), e.parent);
            !Live(events).replay &&
            (!AlreadyShown(m, false, e.id, e.row) ==>
               && MessageOf(Live(events + [e]), e.parent).rows == Finalize(m, false, e.id, e.row).rows
               && Emitted(Live(events + [e]), e.parent) == Finalize(m, false, e.id, e.row).finalized)
  {
    assert (events + [e])[..|events + [e]| - 1] == events;
    RunSnoc(false, events + [e]);
    LiveRemembers(events, e.parent, None);
    ShownIsMatchedThenTail(false, Uncancelled(events), key);
    ProjectSound(Live(events), e, false, key);
    ProjectRows(Live(events), e, e.parent);
  }

  lemma ReplayStep(events: seq<Event>, e: Event, key: Key)
    requires e.Assistant?
    ensures LedgerOf(Replayed(events + [e]), key).offered
            == LedgerOf(Replayed(events), key).offered + Offers(Replayed(events), e, false, key)
    ensures var m := MessageOf(Replayed(events), e.parent);
            Replayed(events).replay &&
            (!AlreadyShown(m, true, e.id, e.row) ==>
               Emitted(Replayed(events + [e]), e.parent) == Finalize(m, true, e.id, e.row).finalized)
  {
    assert (events + [e])[..|events + [e]| - 1] == events;
    RunSnoc(true, events + [e]);
    ReplayRemembers(events, e.parent, None);
    ShownIsMatchedThenTail(true, Uncancelled(events), key);
    ProjectSound(Replayed(events), e, false, key);
    ProjectRows(Replayed(events), e, e.parent);
  }

  lemma OneBlock()
    ensures TextOf([Prose(Text, [7])], Text) == [7] && TextOf([], Text) == []
  {
  }

  function FirstRow(): Event { Assistant(Top, Some(1), Some(1), false, [Prose(Text, [7])], NOTHING) }
  function SecondRow(): Event { Assistant(Top, Some(2), Some(2), false, [], NOTHING) }

  lemma FirstLive()
    ensures LedgerOf(Live([FirstRow()]), Key(Top, Text)).offered == [7] && MessageOf(Live([FirstRow()]), Top).rows == Some(1)
    ensures Emitted(Live([FirstRow()]), Top) == {Some(1)}
  {
    OneBlock();
    OpenedInRange(false);
    assert [] + [FirstRow()] == [FirstRow()];
    LiveStep([], FirstRow(), Key(Top, Text));
  }

  lemma FirstReplayed()
    ensures LedgerOf(Replayed([FirstRow()]), Key(Top, Text)).offered == [7] && Emitted(Replayed([FirstRow()]), Top) == {Some(1)}
  {
    OneBlock();
    OpenedInRange(true);
    assert [] + [FirstRow()] == [FirstRow()];
    ReplayStep([], FirstRow(), Key(Top, Text));
  }

  lemma FirstRows()
    ensures LedgerOf(Live([FirstRow(), SecondRow()]), Key(Top, Text)).offered == [7]
    ensures LedgerOf(Replayed([FirstRow(), SecondRow()]), Key(Top, Text)).offered == [7]
    ensures MessageOf(Live([FirstRow(), SecondRow()]), Top).rows == Some(2)
    ensures Emitted(Replayed([FirstRow(), SecondRow()]), Top) == {Some(1), Some(2)}
  {
    OneBlock();
    FirstLive();
    FirstReplayed();
    assert [FirstRow()] + [SecondRow()] == [FirstRow(), SecondRow()];
    LiveStep([FirstRow()], SecondRow(), Key(Top, Text));
    ReplayStep([FirstRow()], SecondRow(), Key(Top, Text));
  }

  lemma LiveShowsAgain(pair: seq<Event>, e: Event)
    requires e == FirstRow()
    requires MessageOf(Live(pair), Top).rows == Some(2) && LedgerOf(Live(pair), Key(Top, Text)).offered == [7]
    ensures LedgerOf(Live(pair + [e]), Key(Top, Text)).offered == [7] + [7]
  {
    LiveStep(pair, e, Key(Top, Text));
    OneBlock();
  }

  lemma ReplaySkips(pair: seq<Event>, e: Event)
    requires e == FirstRow()
    requires Emitted(Replayed(pair), Top) == {Some(1), Some(2)} && LedgerOf(Replayed(pair), Key(Top, Text)).offered == [7]
    ensures LedgerOf(Replayed(pair + [e]), Key(Top, Text)).offered == [7] + []
  {
    ReplayStep(pair, e, Key(Top, Text));
  }

  function AgainRows(): seq<Event> { [FirstRow(), SecondRow()] + [FirstRow()] }

  lemma ComesLive()
    ensures LedgerOf(Live(AgainRows()), Key(Top, Text)).offered == [7, 7]
  {
    FirstRows();
    LiveShowsAgain([FirstRow(), SecondRow()], FirstRow());
  }

  lemma ComesReplayed()
    ensures LedgerOf(Replayed(AgainRows()), Key(Top, Text)).offered == [7]
  {
    FirstRows();
    ReplaySkips([FirstRow(), SecondRow()], FirstRow());
  }

  lemma AgainRowsAreRows()
    ensures forall i :: 0 <= i < |AgainRows()| ==> AgainRows()[i].Assistant?
  {
  }

  lemma RowComesAgain() returns (events: seq<Event>)
    ensures forall i :: 0 <= i < |events| ==> events[i].Assistant?
    ensures LedgerOf(Live(events), Key(Top, Text)).offered == [7, 7]
    ensures LedgerOf(Replayed(events), Key(Top, Text)).offered == [7]
  {
    AgainRowsAreRows();
    ComesLive();
    ComesReplayed();
    events := AgainRows();
  }

  /** A row that comes again after another API message is shown twice live and once in replay. */
  lemma RepeatedRowShowsTwice() returns (events: seq<Event>)
    ensures LedgerOf(Live(events), Key(Top, Text)).clean && Tail(Live(events), Key(Top, Text)) == []
    ensures Shown(Live(events).sent, Key(Top, Text)) == [7, 7] && Shown(Replayed(events).sent, Key(Top, Text)) == [7]
    ensures ComesAgain(events, Key(Top, Text))
  {
    events := RowComesAgain();
    OffersShow(events, Key(Top, Text));
  }

  /** Rows alone show what they offer. */
  lemma OffersShow(events: seq<Event>, key: Key)
    requires forall i :: 0 <= i < |events| ==> events[i].Assistant?
    ensures LedgerOf(Live(events), key).clean && Tail(Live(events), key) == []
    ensures Shown(Live(events).sent, key) == LedgerOf(Live(events), key).offered
    ensures Shown(Replayed(events).sent, key) == LedgerOf(Replayed(events), key).offered
    ensures Shown(Live(events).sent, key) == Shown(Replayed(events).sent, key) <==> !ComesAgain(events, key)
  {
    RowsSilent(events);
    ReplayedSilent(events);
    assert Silent(Live(events), key) && Silent(Replayed(events), key);
    SilentShows(false, events, key);
    SilentShows(true, events, key);
    LiveAgreesWithReplay(events, key);
  }

  lemma SilentShows(replay: bool, events: seq<Event>, key: Key)
    requires var c := if replay then Replayed(events) else Live(events); Silent(c, key)
    ensures var c := if replay then Replayed(events) else Live(events);
            Shown(c.sent, key) == LedgerOf(c, key).offered && Tail(c, key) == [] && LedgerOf(c, key).clean
  {
    ShownIsMatchedThenTail(replay, Uncancelled(events), key);
    ShowsOffered(ViewOf(if replay then Replayed(events) else Live(events), key));
  }

  /******* Context usage *******/

  /** The last figure sent since the cycle opened or claude compacted. */
  function LastFigure(sent: seq<Update>): int {
    if sent == [] then 0
    else
      var u := sent[|sent| - 1];
      match u
      case Usage(used, _) => used
      case Compaction => 0
      case Chunk(_, _, _) => LastFigure(sent[..|sent| - 1])
  }

  lemma FigureSnoc(sent: seq<Update>, u: Update)
    ensures LastFigure(sent + [u]) == match u case Usage(used, _) => used case Compaction => 0 case Chunk(_, _, _) => LastFigure(sent)
  {
  }

  /** Breakdowns a message_delta reported. */
  function CallEnds(sent: seq<Update>): nat {
    if sent == [] then 0
    else
      var u := sent[|sent| - 1];
      CallEnds(sent[..|sent| - 1]) + if u.Usage? && u.origin.CallEnd? then 1 else 0
  }

  lemma CallEndsSnoc(sent: seq<Update>, u: Update)
    ensures CallEnds(sent + [u]) == CallEnds(sent) + if u.Usage? && u.origin.CallEnd? then 1 else 0
  {
  }

  predicate Positive(sent: seq<Update>) {
    forall i :: 0 <= i < |sent| && sent[i].Usage? ==> sent[i].used > 0
  }

  /** The figures of a cycle that has started `starts` top-level calls. */
  predicate Figured(c: Cycle, starts: nat) {
    && c.context == LastFigure(c.sent) && c.context >= 0
    && Positive(c.sent)
    && CallEnds(c.sent) + (if c.callOpen then 1 else 0) <= starts
  }

  lemma EmitFigured(c: Cycle, used: int, origin: Origin, starts: nat)
    requires Figured(c, starts)
    requires origin.CallEnd? ==> !c.callOpen && CallEnds(c.sent) < starts
    ensures Figured(EmitContext(c, used, origin), starts)
  {
    FigureSnoc(c.sent, Usage(used, origin));
    CallEndsSnoc(c.sent, Usage(used, origin));
  }

  lemma OpenFigured(c: Cycle, o: Opening, starts: nat)
    requires Figured(c, starts)
    ensures Figured(OpenCall(c, o), starts + 1)
  {
    var start := if Known(o.usage) then o.usage else NOTHING;
    EmitFigured(c.(call := o.id, callStart := start, callOpen := true), RequestTokens(start), Request, starts + 1);
  }

  lemma CloseFigured(c: Cycle, usage: Figures, starts: nat)
    requires Figured(c, starts)
    ensures Figured(CloseCall(c, usage), starts)
  {
    var figures := ResponseUsage(c.callStart, usage);
    var used := RequestTokens(figures) + Tokens(figures.output);
    if c.callOpen {
      assert Figured(c.(callOpen := false), starts);
      EmitFigured(c.(callOpen := false), used, CallEnd(c.call, figures), starts);
      CloseCallEmits(c, usage);
    }
  }

  lemma CloseCallEmits(c: Cycle, usage: Figures)
    requires c.callOpen
    ensures var figures := ResponseUsage(c.callStart, usage);
            || CloseCall(c, usage) == c.(callOpen := false)
            || CloseCall(c, usage) == EmitContext(c.(callOpen := false), RequestTokens(figures) + Tokens(figures.output),
                                                  CallEnd(c.call, figures))
  {
  }

  lemma RecordFigured(c: Cycle, e: Event, starts: nat)
    requires e.Assistant? && Figured(c, starts)
    ensures Figured(RecordCall(c, e.parent, e.id, e.synthetic, e.usage), starts)
  {
    var responseId := if e.synthetic then None else e.id;
    var figures := e.usage.(output := None);
    EmitFigured(c.(call := responseId, callOpen := false), RequestTokens(figures), Record(responseId, figures), starts);
  }

  /** Text updates carry no figure. */
  lemma ChunkFigured(c: Cycle, d: Cycle, u: Update, starts: nat)
    requires Figured(c, starts) && d.context == c.context && d.callOpen == c.callOpen
    requires d.sent == c.sent || (u.Chunk? && d.sent == c.sent + [u])
    ensures Figured(d, starts)
  {
  }

  lemma ConsumeFigured(c: Cycle, at: Key, full: Bytes, starts: nat)
    requires Used(c, at) <= |Streamed(c, at)| && Figured(c, starts)
    ensures Figured(Consume(c, at, full), starts)
    ensures Consume(c, at, full).call == c.call && Consume(c, at, full).callOpen == c.callOpen
    ensures Consume(c, at, full).context == c.context
  {
    ChunkFigured(c, Consume(c, at, full), Chunk(at.parent, at.kind, MatchBlock(Streamed(c, at), Used(c, at), full).suffix), starts);
  }

  lemma {:induction false} ConsumeAllFigured(c: Cycle, parent: Parent, blocks: seq<Block>, starts: nat)
    requires InRange(c) && Figured(c, starts)
    ensures Figured(ConsumeAll(c, parent, blocks), starts)
    ensures ConsumeAll(c, parent, blocks).call == c.call && ConsumeAll(c, parent, blocks).callOpen == c.callOpen
    ensures ConsumeAll(c, parent, blocks).context == c.context
    decreases |blocks|
  {
    if blocks != [] {
      var d := ConsumeAll(c, parent, blocks[..|blocks| - 1]);
      var b := blocks[|blocks| - 1];
      ConsumeAllFigured(c, parent, blocks[..|blocks| - 1], starts);
      if b.Prose? {
        assert Used(d, Key(parent, b.kind)) <= |Streamed(d, Key(parent, b.kind))|;
        ConsumeFigured(d, Key(parent, b.kind), b.text, starts);
      }
    }
  }

  /** The input starts a top-level model call. */
  predicate StartsCall(c: Cycle, e: Event, cancelled: bool) {
    e.MessageStart? && e.parent == Top && e.message.Some? && !cancelled && !c.replay
  }

  lemma AssistantFigured(c: Cycle, e: Event, starts: nat)
    requires InRange(c) && Figured(c, starts) && e.Assistant?
    ensures Figured(ProjectAssistant(c, e), starts)
    ensures e.parent != Top ==> ProjectAssistant(c, e).context == c.context && ProjectAssistant(c, e).call == c.call
                                && ProjectAssistant(c, e).callOpen == c.callOpen
  {
    var m := MessageOf(c, e.parent);
    if !AlreadyShown(m, c.replay, e.id, e.row) {
      var d := c.(messages := c.messages[e.parent := Finalize(m, c.replay, e.id, e.row)]);
      KeepsRange(c, d, e.parent);
      ConsumeAllFigured(d, e.parent, e.blocks, starts);
      RecordFigured(ConsumeAll(d, e.parent, e.blocks), e, starts);
    }
  }

  lemma StreamEventFigured(c: Cycle, e: Event, starts: nat)
    requires Figured(c, starts) && !e.Assistant? && !e.Compacted? && !c.replay
    ensures Figured(ProjectStream(c, e), if StartsCall(c, e, false) then starts + 1 else starts)
    ensures e.parent != Top ==> ProjectStream(c, e).context == c.context && ProjectStream(c, e).call == c.call
                                && ProjectStream(c, e).callOpen == c.callOpen
  {
    match e {
      case MessageStart(parent, message) =>
        ChunkFigured(c, StartMessage(c, parent), Compaction, starts);
        if StartsCall(c, e, false) { OpenFigured(StartMessage(c, parent), message.value, starts); }
      case Delta(parent, kind, text) =>
        ChunkFigured(c, Stream(c, Key(parent, kind), text), Chunk(parent, kind, text), starts);
      case MessageDelta(_, usage) => CloseFigured(c, usage, starts);
    }
  }

  lemma ProjectFigured(c: Cycle, e: Event, cancelled: bool, starts: nat)
    requires InRange(c) && Figured(c, starts)
    ensures Figured(Project(c, e, cancelled), if StartsCall(c, e, cancelled) then starts + 1 else starts)
    ensures e.parent != Top ==> Project(c, e, cancelled).context == c.context && Project(c, e, cancelled).call == c.call
                                && Project(c, e, cancelled).callOpen == c.callOpen
  {
    if e.Compacted? {
      FigureSnoc(c.sent, Compaction);
      CallEndsSnoc(c.sent, Compaction);
    } else if !cancelled && e.Assistant? {
      AssistantFigured(c, e, starts);
    } else if !cancelled && !c.replay {
      StreamEventFigured(c, e, starts);
    }
  }

  /** Top-level calls the inputs start. */
  function Starts(inputs: seq<Input>): nat {
    if inputs == [] then 0
    else
      var last := inputs[|inputs| - 1];
      Starts(inputs[..|inputs| - 1]) + if StartsCall(Opened(false), last.event, last.cancelled) then 1 else 0
  }

  /** After any input the context is the last figure sent since the cycle opened or claude compacted, every figure sent
      is positive, and there have been no more breakdowns than message_starts. */
  lemma {:induction false} ContextIsLastFigure(inputs: seq<Input>)
    ensures InRange(Opened(false)) && Figured(Run(Opened(false), inputs), Starts(inputs)) && !Run(Opened(false), inputs).replay
    decreases |inputs|
  {
    OpenedInRange(false);
    if inputs != [] {
      var last := inputs[|inputs| - 1];
      var c := Run(Opened(false), inputs[..|inputs| - 1]);
      ContextIsLastFigure(inputs[..|inputs| - 1]);
      ProjectFigured(c, last.event, last.cancelled, Starts(inputs[..|inputs| - 1]));
      ProjectKeepsReplay(c, last.event, last.cancelled);
    }
  }

  lemma {:induction false} RunAppends(c: Cycle, a: seq<Input>, b: seq<Input>)
    requires InRange(c)
    ensures Run(c, a + b) == Run(Run(c, a), b)
    decreases |b|
  {
    if b == [] {
      assert a + b == a;
    } else {
      assert (a + b)[..|a + b| - 1] == a + b[..|b| - 1];
      RunAppends(c, a, b[..|b| - 1]);
    }
  }

  ghost predicate NoStart(mid: seq<Input>) {
    forall i :: 0 <= i < |mid| ==> !StartsCall(Opened(false), mid[i].event, mid[i].cancelled)
  }

  /** While no top-level call starts, an open call reports at most one breakdown, and a closed one none. */
  lemma {:induction false} BreakdownsWithoutStart(c: Cycle, mid: seq<Input>)
    requires InRange(c) && !c.replay && NoStart(mid) && Figured(c, CallEnds(c.sent) + if c.callOpen then 1 else 0)
    ensures !Run(c, mid).replay && Figured(Run(c, mid), CallEnds(c.sent) + if c.callOpen then 1 else 0)
    decreases |mid|
  {
    if mid != [] {
      var head, last := mid[..|mid| - 1], mid[|mid| - 1];
      BreakdownsWithoutStart(c, head);
      ProjectFigured(Run(c, head), last.event, last.cancelled, CallEnds(c.sent) + if c.callOpen then 1 else 0);
      ProjectKeepsReplay(Run(c, head), last.event, last.cancelled);
    }
  }

  /** A message_start opens its call and reports no breakdown itself. */
  lemma StartOpensCall(c: Cycle, e: Event)
    requires InRange(c) && StartsCall(c, e, false)
    ensures Project(c, e, false).callOpen && CallEnds(Project(c, e, false).sent) == CallEnds(c.sent)
  {
    assert Project(c, e, false) == OpenCall(StartMessage(c, Top), e.message.value);
    OpenCallOpens(StartMessage(c, Top), e.message.value);
  }

  lemma OpenCallOpens(c: Cycle, o: Opening)
    ensures OpenCall(c, o).callOpen && CallEnds(OpenCall(c, o).sent) == CallEnds(c.sent)
  {
    var start := if Known(o.usage) then o.usage else NOTHING;
    CallEndsSnoc(c.sent, Usage(RequestTokens(start), Request));
  }

  /** Each top-level message_start yields at most one message_delta breakdown before the next one. */
  lemma OneBreakdownPerCall(before: seq<Input>, start: Input, mid: seq<Input>)
    requires StartsCall(Opened(false), start.event, start.cancelled) && NoStart(mid)
    ensures InRange(Opened(false))
    ensures CallEnds(Run(Opened(false), before + [start] + mid).sent) <= CallEnds(Run(Opened(false), before).sent) + 1
  {
    ContextIsLastFigure(before);
    ContextIsLastFigure(before + [start]);
    assert (before + [start])[..|before + [start]| - 1] == before;
    StartOpensCall(Run(Opened(false), before), start.event);
    RunAppends(Opened(false), before + [start], mid);
    BreakdownsWithoutStart(Run(Opened(false), before + [start]), mid);
  }

  /** Before the first message_start there is none. */
  lemma NoBreakdownUncalled(mid: seq<Input>)
    requires NoStart(mid)
    ensures InRange(Opened(false)) && CallEnds(Run(Opened(false), mid).sent) == 0
  {
    ContextIsLastFigure([]);
    BreakdownsWithoutStart(Opened(false), mid);
  }

  lemma ProjectKeepsReplay(c: Cycle, e: Event, cancelled: bool)
    requires InRange(c)
    ensures Project(c, e, cancelled).replay == c.replay
  {
    if !cancelled { ProjectRows(c, e, Top); }
  }

  /** A delegated event leaves the cycle's context and call alone, and reports no figure. */
  lemma DelegatedChangesNoFigure(inputs: seq<Input>, e: Event, cancelled: bool)
    requires e.parent != Top
    ensures InRange(Opened(false))
    ensures var c := Run(Opened(false), inputs);
            var d := Project(c, e, cancelled);
            && d.context == c.context && d.call == c.call && d.callOpen == c.callOpen
            && c.sent <= d.sent && OnlyText(d.sent[|c.sent|..])
  {
    var c := Run(Opened(false), inputs);
    ContextIsLastFigure(inputs);
    ProjectFigured(c, e, cancelled, Starts(inputs));
    DelegatedSendsText(c, e, cancelled);
  }

  lemma DelegatedSendsText(c: Cycle, e: Event, cancelled: bool)
    requires InRange(c) && e.parent != Top
    ensures c.sent <= Project(c, e, cancelled).sent && OnlyText(Project(c, e, cancelled).sent[|c.sent|..])
  {
    if !e.Compacted? && !cancelled {
      if e.Assistant? { DelegatedRowSendsText(c, e); } else { DelegatedStreamSendsText(c, e); }
    }
  }

  lemma DelegatedRowSendsText(c: Cycle, e: Event)
    requires InRange(c) && e.parent != Top && e.Assistant?
    ensures c.sent <= ProjectAssistant(c, e).sent && OnlyText(ProjectAssistant(c, e).sent[|c.sent|..])
  {
    var m := MessageOf(c, e.parent);
    if !AlreadyShown(m, c.replay, e.id, e.row) {
      var d := c.(messages := c.messages[e.parent := Finalize(m, c.replay, e.id, e.row)]);
      KeepsRange(c, d, e.parent);
      ConsumeAllSendsText(d, e.parent, e.blocks);
    }
  }

  lemma DelegatedStreamSendsText(c: Cycle, e: Event)
    requires e.parent != Top && !e.Assistant? && !e.Compacted?
    ensures c.sent <= ProjectStream(c, e).sent && OnlyText(ProjectStream(c, e).sent[|c.sent|..])
  {
  }

  predicate OnlyText(sent: seq<Update>) {
    forall i :: 0 <= i < |sent| ==> sent[i].Chunk?
  }

  lemma {:induction false} ConsumeAllSendsText(c: Cycle, parent: Parent, blocks: seq<Block>)
    requires InRange(c)
    ensures c.sent <= ConsumeAll(c, parent, blocks).sent && OnlyText(ConsumeAll(c, parent, blocks).sent[|c.sent|..])
    decreases |blocks|
  {
    if blocks != [] {
      var d := ConsumeAll(c, parent, blocks[..|blocks| - 1]);
      var b := blocks[|blocks| - 1];
      ConsumeAllSendsText(c, parent, blocks[..|blocks| - 1]);
      if b.Prose? {
        assert Used(d, Key(parent, b.kind)) <= |Streamed(d, Key(parent, b.kind))|;
        ConsumeSendsText(d, Key(parent, b.kind), b.text);
      }
    }
  }

  lemma ConsumeSendsText(c: Cycle, key: Key, full: Bytes)
    requires Used(c, key) <= |Streamed(c, key)|
    ensures c.sent <= Consume(c, key, full).sent && OnlyText(Consume(c, key, full).sent[|c.sent|..])
  {
  }

  /** emitSettledUsage: the figure a settled cycle reports, or nothing. */
  function SettledFigure(c: Cycle, structured: bool): Option<int> {
    if c.context == 0 && !structured then None else Some(c.context)
  }

  /** Settlement restates the last figure, and is silent without one unless a structured result must go out. */
  lemma SettlementRestates(inputs: seq<Input>, structured: bool)
    ensures InRange(Opened(false))
    ensures var c := Run(Opened(false), inputs);
            SettledFigure(c, structured) ==
            if LastFigure(c.sent) == 0 && !structured then None else Some(LastFigure(c.sent))
  {
    ContextIsLastFigure(inputs);
  }
}
