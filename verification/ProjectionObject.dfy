/** The cycle state as the code mutates it, proved against Projection's functions, and the two loops over it. */
module ProjectionObject {
  import opened Options
  import opened Projection
  import opened ProjectionTheorems

  class CycleState {
    const replay: bool
    var messages: map<Parent, Message>
    var streams: map<Key, Bytes>
    var context: int
    var call: Id
    var callStart: Figures
    var callOpen: bool
    var sent: seq<Update>               // what the host was sent
    ghost var ledgers: map<Key, Ledger>

    ghost function Abs(): Cycle
      reads this
    {
      Cycle(replay, messages, streams, context, call, callStart, callOpen, sent, ledgers)
    }

    constructor (replay0: bool)
      ensures Abs() == Opened(replay0)
    {
      replay := replay0;
      messages, streams, context, call, callStart, callOpen, sent, ledgers := map[], map[], 0, None, NOTHING, false, [], map[];
    }

    method Emit(update: Update)
      modifies `sent
      ensures sent == old(sent) + [update]
    {
      sent := sent + [update];
    }

    /** A completed block matched against the streamed bytes after `used`; what they did not carry is returned. */
    method ConsumeAssistantText(key: Key, full: Bytes) returns (suffix: Bytes)
      requires Used(Abs(), key) <= |Streamed(Abs(), key)|
      modifies `messages, `streams, `ledgers
      ensures var before := old(Abs());
              var m := MatchBlock(Streamed(before, key), Used(before, key), full);
              && suffix == (if full == [] then [] else m.suffix)
              && Abs() == (if full == [] then before
                           else if !m.matched then Booked(before, key, full)
                           else Settle(Booked(before, key, full), key, m))
    {
      if full == [] {
        return [];
      }
      var text := if key in streams then streams[key] else [];
      var message := if key.parent in messages then messages[key.parent] else Message(None, {}, 0, 0);
      var used := message.Used(key.kind);
      var pending := text[used..];
      ghost var ledger := Book(LedgerOf(Abs(), key), MatchBlock(text, used, full), full);
      suffix := [];
      if full <= pending {
        used := used + |full|;
      } else if pending <= full {
        suffix := full[|pending|..];
        used := |text|;
      } else {
        ledgers := ledgers[key := ledger];
        return [];
      }
      if used == |text| {
        streams := streams - {key};
        used := 0;
      }
      messages := messages[key.parent := message.WithUsed(key.kind, used)];
      ledgers := ledgers[key := ledger];
    }

    method ShowBlock(key: Key, full: Bytes)
      requires Used(Abs(), key) <= |Streamed(Abs(), key)|
      modifies this
      ensures Abs() == Consume(old(Abs()), key, full)
    {
      var suffix := ConsumeAssistantText(key, full);
      if suffix == [] {
        return;
      }
      Emit(Chunk(key.parent, key.kind, suffix));
    }

    method StartMessage(parent: Parent)
      modifies `messages, `streams, `ledgers
      ensures Abs() == Projection.StartMessage(old(Abs()), parent)
    {
      ghost var before := Abs();
      var message := if parent in messages then messages[parent] else Message(None, {}, 0, 0);
      messages := messages[parent := message.(textUsed := 0, thinkingUsed := 0)];
      streams := streams - {Key(parent, Text), Key(parent, Thinking)};
      ledgers := ledgers[Key(parent, Text) := Cut(LedgerOf(before, Key(parent, Text)), Tail(before, Key(parent, Text)))]
                        [Key(parent, Thinking) := Cut(LedgerOf(before, Key(parent, Thinking)), Tail(before, Key(parent, Thinking)))];
    }

    method Add(key: Key, text: Bytes)
      modifies this
      ensures Abs() == Stream(old(Abs()), key, text)
    {
      ledgers := ledgers[key := LedgerOf(Abs(), key).(shown := LedgerOf(Abs(), key).shown + text)];
      streams := streams[key := (if key in streams then streams[key] else []) + text];
      Emit(Chunk(key.parent, key.kind, text));
    }

    method EmitContext(used: int, origin: Origin)
      modifies `context, `sent
      ensures Abs() == Projection.EmitContext(old(Abs()), used, origin)
    {
      if used <= 0 {
        return;
      }
      context := used;
      Emit(Usage(used, origin));
    }

    method EmitResponseInput(o: Opening)
      modifies this
      ensures Abs() == OpenCall(old(Abs()), o)
    {
      var start := o.usage;
      if !Known(start) {
        start := NOTHING;
      }
      call, callStart, callOpen := o.id, start, true;
      EmitContext(RequestTokens(start), Request);
    }

    method EmitResponseUsage(usage: Figures)
      modifies this
      ensures Abs() == CloseCall(old(Abs()), usage)
    {
      if !callOpen {
        return;
      }
      callOpen := false;
      if !Known(usage) {
        return;
      }
      var figures := ResponseUsage(callStart, usage);
      var request := RequestTokens(figures);
      if request == 0 {
        return;
      }
      EmitContext(request + Tokens(figures.output), CallEnd(call, figures));
    }

    /** The event's share of projectStream; delegated calls report no usage. */
    method ProjectStream(e: Event)
      requires !e.Assistant? && !e.Compacted?
      modifies this
      ensures Abs() == Projection.ProjectStream(old(Abs()), e)
    {
      match e {
        case MessageStart(parent, message) =>
          StartMessage(parent);
          if message.Some? && parent == Top {
            EmitResponseInput(message.value);
          }
        case Delta(parent, kind, text) => Add(Key(parent, kind), text);
        case MessageDelta(parent, usage) =>
          if parent == Top {
            EmitResponseUsage(usage);
          }
      }
    }

    method ShowBlocks(parent: Parent, blocks: seq<Block>)
      requires InRange(Abs())
      modifies this
      ensures Abs() == ConsumeAll(old(Abs()), parent, blocks)
    {
      ghost var before := Abs();
      for i := 0 to |blocks|
        invariant Abs() == ConsumeAll(before, parent, blocks[..i])
      {
        assert blocks[..i + 1][..i] == blocks[..i];
        if blocks[i].Prose? {
          assert Used(Abs(), Key(parent, blocks[i].kind)) <= |Streamed(Abs(), Key(parent, blocks[i].kind))|;
          ShowBlock(Key(parent, blocks[i].kind), blocks[i].text);
        }
      }
      assert blocks[..|blocks|] == blocks;
    }

    method ReportRecord(parent: Parent, id: Id, synthetic: bool, usage: Figures)
      modifies this
      ensures Abs() == RecordCall(old(Abs()), parent, id, synthetic, usage)
    {
      var responseId := id;
      if synthetic {
        responseId := None;
      }
      if replay || parent != Top || responseId.None? || responseId == call {
        return;
      }
      call, callOpen := responseId, false;
      var figures := usage.(output := None);
      EmitContext(RequestTokens(figures), Record(responseId, figures));
    }

    method ProjectAssistant(e: Event)
      requires e.Assistant? && InRange(Abs())
      modifies this
      ensures Abs() == Projection.ProjectAssistant(old(Abs()), e)
    {
      var message := if e.parent in messages then messages[e.parent] else Message(None, {}, 0, 0);
      if !replay && e.id != message.rows {
        message := message.(rows := e.id, finalized := {});
      }
      if e.row.Some? && e.row in message.finalized {
        return;
      }
      if e.row.Some? {
        message := message.(finalized := message.finalized + {e.row});
      }
      ghost var before := Abs();
      messages := messages[e.parent := message];
      KeepsRange(before, Abs(), e.parent);
      ShowBlocks(e.parent, e.blocks);
      ReportRecord(e.parent, e.id, e.synthetic, e.usage);
    }

    method ProjectEvent(e: Event, cancelled: bool)
      requires InRange(Abs())
      modifies this
      ensures Abs() == Project(old(Abs()), e, cancelled) && InRange(Abs())
    {
      ProjectInRange(Abs(), e, cancelled);
      if e.Compacted? {
        if e.parent == Top && !replay {
          context, call, callOpen := 0, None, false;
          Emit(Compaction);
        }
        return;
      }
      if cancelled {
        return;
      }
      if e.Assistant? {
        ProjectAssistant(e);
      } else if !replay {
        ProjectStream(e);
      }
    }

    method EmitSettledUsage(structured: bool) returns (figure: Option<int>)
      ensures figure == SettledFigure(Abs(), structured)
    {
      if context == 0 && !structured {
        return None;
      }
      figure := Some(context);
    }
  }

  /** One pass over a transcript's events: the live pump's when `replay` is off, the restore's when it is on. */
  method Follow(replay: bool, inputs: seq<Input>) returns (c: CycleState)
    ensures InRange(Opened(replay)) && fresh(c) && c.Abs() == Run(Opened(replay), inputs)
  {
    c := new CycleState(replay);
    assert InRange(Opened(replay));
    for i := 0 to |inputs|
      invariant c.Abs() == Run(Opened(replay), inputs[..i])
    {
      assert inputs[..i + 1][..i] == inputs[..i];
      c.ProjectEvent(inputs[i].event, inputs[i].cancelled);
    }
    assert inputs[..|inputs|] == inputs;
  }
}
