/**
 Which completed blocks match the streamed text, and so exactly when a run's text is clean: nothing streamed was cut off
 by a message_start, and every block it was offered began the streamed tail or extended it.
 */
module ProjectionMatches {
  import opened Options
  import opened Projection
  import opened ProjectionTheorems

  /** The block begins what is streamed and not yet matched, or begins with it. */
  predicate Agrees(tail: Bytes, full: Bytes) {
    full <= tail || tail <= full
  }

  /** What is left of the tail once the block has been matched to it. */
  function LeftOf(tail: Bytes, full: Bytes): Bytes {
    if full <= tail then tail[|full|..]
    else if tail <= full then []
    else tail
  }

  /** A block matches exactly if it agrees with the tail; tail and suffix are then the longer of the two, and the shorter
      is used up. A block that does not match uses and shows nothing. */
  lemma MatchesExactly(text: Bytes, used: nat, full: Bytes)
    requires used <= |text|
    ensures var m := MatchBlock(text, used, full);
            var tail := text[used..];
            && (m.matched <==> full <= tail || tail <= full)
            && (m.matched ==> tail + m.suffix == (if |full| <= |tail| then tail else full))
            && (m.matched ==> m.used - used == if |full| <= |tail| then |full| else |tail|)
            && (!m.matched ==> m.used == used && m.suffix == [])
            && m.used <= |text| && text[m.used..] == LeftOf(tail, full)
  {
    var tail := text[used..];
    if full <= tail { assert tail[|full|..] == text[used + |full|..]; }
  }

  /** A completed block shows what it adds to the tail it begins with, and nothing else: a block that begins the tail is
      already shown, and one that does neither is dropped. A stream used up is released. */
  lemma BlockShows(c: Cycle, key: Key, full: Bytes)
    requires InRange(c) && full != []
    ensures Used(c, key) <= |Streamed(c, key)|
    ensures var d := Consume(c, key, full);
            var tail := Tail(c, key);
            && d.sent == (if tail <= full && tail != full then c.sent + [Chunk(key.parent, key.kind, full[|tail|..])] else c.sent)
            && Tail(d, key) == LeftOf(tail, full)
            && (Agrees(tail, full) && LeftOf(tail, full) == [] ==> key !in d.streams)
  {
    assert Used(c, key) <= |Streamed(c, key)|;
    MatchesExactly(Streamed(c, key), Used(c, key), full);
    ConsumesOwn(c, key, full);
    ConsumeLeaves(ViewOf(c, key), full);
    TailSeen(c, key);
    TailSeen(Consume(c, key, full), key);
    Releases(Booked(c, key, full), key, MatchBlock(Streamed(c, key), Used(c, key), full));
  }

  lemma Releases(c: Cycle, key: Key, m: Match)
    ensures m.used == |Streamed(c, key)| ==> key !in Settle(c, key, m).streams
  {
  }

  /** One delta is shown as it arrives and joins the tail. */
  lemma DeltaIsShown(c: Cycle, parent: Parent, kind: Kind, text: Bytes, key: Key)
    requires InRange(c) && !c.replay
    ensures var d := Project(c, Delta(parent, kind, text), false);
            && d.sent == c.sent + [Chunk(parent, kind, text)]
            && Shown(d.sent, key) == Shown(c.sent, key) + (if key == Key(parent, kind) then text else [])
            && Tail(d, key) == Tail(c, key) + (if key == Key(parent, kind) then text else [])
  {
    assert Used(c, key) <= |Streamed(c, key)|;
    StreamSeen(c, Key(parent, kind), text, key);
    assert Shown(c.sent, key) + [] == Shown(c.sent, key) && Tail(c, key) + [] == Tail(c, key);
  }

  /******* One key through one row *******/

  lemma ConsumeLeaves(v: View, full: Bytes)
    requires v.used <= |v.text|
    ensures var w := ConsumeView(v, full);
            && w.used <= |w.text| && TailOf(w) == LeftOf(TailOf(v), full)
            && (w.ledger.clean <==> v.ledger.clean && Agrees(TailOf(v), full))
  {
    MatchesExactly(v.text, v.used, full);
    if full == [] { assert TailOf(v)[0..] == TailOf(v); }
  }

  /** The row's prose of one kind, block by block. */
  function LeftByRow(tail: Bytes, blocks: seq<Block>, kind: Kind): Bytes {
    if blocks == [] then tail
    else
      var left, b := LeftByRow(tail, blocks[..|blocks| - 1], kind), blocks[|blocks| - 1];
      if b.Prose? && b.kind == kind then LeftOf(left, b.text) else left
  }

  predicate RowAgrees(tail: Bytes, blocks: seq<Block>, kind: Kind) {
    blocks == [] ||
    (var head, b := blocks[..|blocks| - 1], blocks[|blocks| - 1];
     RowAgrees(tail, head, kind) && (b.Prose? && b.kind == kind ==> Agrees(LeftByRow(tail, head, kind), b.text)))
  }

  lemma TailSeen(c: Cycle, key: Key)
    ensures TailOf(ViewOf(c, key)) == Tail(c, key) && ViewOf(c, key).ledger == LedgerOf(c, key)
  {
  }

  ghost function AfterBlock(c: Cycle, parent: Parent, b: Block): Cycle
    requires InRange(c)
  {
    if b.Prose? then
      assert Used(c, Key(parent, b.kind)) <= |Streamed(c, Key(parent, b.kind))|;
      Consume(c, Key(parent, b.kind), b.text)
    else c
  }

  lemma ConsumeAllSnoc(c: Cycle, parent: Parent, blocks: seq<Block>)
    requires InRange(c) && blocks != []
    ensures ConsumeAll(c, parent, blocks) == AfterBlock(ConsumeAll(c, parent, blocks[..|blocks| - 1]), parent, blocks[|blocks| - 1])
  {
  }

  lemma BlockLeaves(c: Cycle, parent: Parent, b: Block, key: Key)
    requires InRange(c)
    ensures var d := AfterBlock(c, parent, b);
            if b.Prose? && key == Key(parent, b.kind)
            then Tail(d, key) == LeftOf(Tail(c, key), b.text)
                 && (LedgerOf(d, key).clean <==> LedgerOf(c, key).clean && Agrees(Tail(c, key), b.text))
            else Tail(d, key) == Tail(c, key) && LedgerOf(d, key).clean == LedgerOf(c, key).clean
  {
    if b.Prose? {
      var at := Key(parent, b.kind);
      assert Used(c, at) <= |Streamed(c, at)| && Used(c, key) <= |Streamed(c, key)|;
      ConsumeSeen(c, at, b.text, key);
      TailSeen(c, key);
      TailSeen(AfterBlock(c, parent, b), key);
      if key == at { ConsumeLeaves(ViewOf(c, key), b.text); }
    }
  }

  /** What the row makes of one key: the tail left, and whether all agreed. */
  ghost predicate RowMakes(c: Cycle, d: Cycle, blocks: seq<Block>, key: Key) {
    && Tail(d, key) == LeftByRow(Tail(c, key), blocks, key.kind)
    && (LedgerOf(d, key).clean <==> LedgerOf(c, key).clean && RowAgrees(Tail(c, key), blocks, key.kind))
  }

  lemma RowSnoc(c: Cycle, d: Cycle, n: Cycle, blocks: seq<Block>, key: Key)
    requires blocks != [] && RowMakes(c, d, blocks[..|blocks| - 1], key)
    requires var b := blocks[|blocks| - 1];
             if b.Prose? && b.kind == key.kind
             then Tail(n, key) == LeftOf(Tail(d, key), b.text)
                  && (LedgerOf(n, key).clean <==> LedgerOf(d, key).clean && Agrees(Tail(d, key), b.text))
             else Tail(n, key) == Tail(d, key) && LedgerOf(n, key).clean == LedgerOf(d, key).clean
    ensures RowMakes(c, n, blocks, key)
  {
  }

  lemma {:induction false} RowLeaves(c: Cycle, parent: Parent, blocks: seq<Block>, key: Key)
    requires InRange(c)
    ensures var d := ConsumeAll(c, parent, blocks);
            if key.parent == parent then RowMakes(c, d, blocks, key)
            else Tail(d, key) == Tail(c, key) && LedgerOf(d, key).clean == LedgerOf(c, key).clean
    decreases |blocks|
  {
    if blocks != [] {
      var head := blocks[..|blocks| - 1];
      RowLeaves(c, parent, head, key);
      ConsumeAllSnoc(c, parent, blocks);
      BlockLeaves(ConsumeAll(c, parent, head), parent, blocks[|blocks| - 1], key);
      if key.parent == parent { RowSnoc(c, ConsumeAll(c, parent, head), ConsumeAll(c, parent, blocks), blocks, key); }
    }
  }

  /******* A run *******/

  /** The input cuts off nothing streamed under the key, and every block it offers agrees with the tail. */
  predicate InputFits(c: Cycle, input: Input, key: Key) {
    var e := input.event;
    !input.cancelled && e.parent == key.parent ==>
      match e
      case MessageStart(_, _) => c.replay || Tail(c, key) == []
      case Assistant(_, row, id, _, blocks, _) =>
        AlreadyShown(MessageOf(c, e.parent), c.replay, id, row) || RowAgrees(Tail(c, key), blocks, key.kind)
      case _ => true
  }

  ghost predicate AllFit(replay: bool, inputs: seq<Input>, key: Key)
    requires InRange(Opened(replay))
    decreases |inputs|
  {
    inputs == [] ||
    (var head := inputs[..|inputs| - 1];
     AllFit(replay, head, key) && InputFits(Run(Opened(replay), head), inputs[|inputs| - 1], key))
  }

  /** What a view tells of a cycle. */
  lemma ViewTells(c: Cycle, d: Cycle, key: Key)
    requires ViewOf(d, key) == ViewOf(c, key)
    ensures LedgerOf(d, key).clean == LedgerOf(c, key).clean
  {
    TailSeen(c, key);
    TailSeen(d, key);
  }

  lemma StartCleans(c: Cycle, e: Event, key: Key)
    requires e.MessageStart?
    ensures LedgerOf(ProjectStream(c, e), key).clean <==>
            LedgerOf(c, key).clean && (e.parent == key.parent ==> Tail(c, key) == [])
  {
    StartEventSeen(c, e, key);
    TailSeen(c, key);
    TailSeen(ProjectStream(c, e), key);
  }

  lemma DeltaCleans(c: Cycle, at: Key, text: Bytes, key: Key)
    ensures LedgerOf(Stream(c, at, text), key).clean == LedgerOf(c, key).clean
  {
  }

  lemma StreamEventCleans(c: Cycle, e: Event, key: Key)
    requires InRange(c) && !e.Assistant? && !e.Compacted? && !c.replay
    ensures LedgerOf(ProjectStream(c, e), key).clean <==> LedgerOf(c, key).clean && InputFits(c, Input(e, false), key)
  {
    match e {
      case MessageStart(_, _) => StartCleans(c, e, key);
      case Delta(parent, kind, text) => DeltaCleans(c, Key(parent, kind), text, key);
      case MessageDelta(parent, usage) =>
        if parent == Top {
          CloseSeen(c, usage, key);
          ViewTells(c, CloseCall(c, usage), key);
        }
    }
  }

  lemma RowEventCleans(c: Cycle, e: Event, key: Key)
    requires InRange(c) && e.Assistant?
    ensures LedgerOf(ProjectAssistant(c, e), key).clean <==> LedgerOf(c, key).clean && InputFits(c, Input(e, false), key)
  {
    var m := MessageOf(c, e.parent);
    if !AlreadyShown(m, c.replay, e.id, e.row) {
      var d := c.(messages := c.messages[e.parent := Finalize(m, c.replay, e.id, e.row)]);
      KeepsRange(c, d, e.parent);
      assert ViewOf(d, key) == ViewOf(c, key);
      TailSeen(c, key);
      TailSeen(d, key);
      RowLeaves(d, e.parent, e.blocks, key);
      RecordSeen(ConsumeAll(d, e.parent, e.blocks), e.parent, e.id, e.synthetic, e.usage, key);
      TailSeen(ConsumeAll(d, e.parent, e.blocks), key);
      TailSeen(ProjectAssistant(c, e), key);
    }
  }

  lemma EventCleans(c: Cycle, input: Input, key: Key)
    requires InRange(c)
    ensures LedgerOf(Project(c, input.event, input.cancelled), key).clean <==> LedgerOf(c, key).clean && InputFits(c, input, key)
  {
    var e := input.event;
    if e.Assistant? && !input.cancelled {
      RowEventCleans(c, e, key);
    } else if !e.Assistant? && !e.Compacted? && !input.cancelled && !c.replay {
      StreamEventCleans(c, e, key);
    }
  }

  /** Over any input, live or replayed, a key's text is clean exactly if no message_start cut a tail off and every block
      offered began the tail or extended it. */
  lemma {:induction false} CleanExactly(replay: bool, inputs: seq<Input>, key: Key)
    ensures InRange(Opened(replay))
    ensures LedgerOf(Run(Opened(replay), inputs), key).clean <==> AllFit(replay, inputs, key)
    decreases |inputs|
  {
    OpenedInRange(replay);
    if inputs != [] {
      var head := inputs[..|inputs| - 1];
      CleanExactly(replay, head, key);
      EventCleans(Run(Opened(replay), head), inputs[|inputs| - 1], key);
    }
  }

  /** So where every block agreed with what was streamed and no tail was left, the live text equals the replayed text
      exactly if no forgotten row came again with text. */
  lemma LiveAgreesWhereAllFit(events: seq<Event>, key: Key)
    requires InRange(Opened(false)) && AllFit(false, Uncancelled(events), key) && Tail(Live(events), key) == []
    ensures Shown(Live(events).sent, key) == Shown(Replayed(events).sent, key) <==> !ComesAgain(events, key)
  {
    CleanExactly(false, Uncancelled(events), key);
    LiveAgreesWithReplay(events, key);
  }
}
