/** What a context figure is: the sums the usage reports of one model call state, member by member. */
module ProjectionFigures {
  import opened Options
  import opened Projection
  import opened ProjectionTheorems

  /** A member a report leaves out counts as zero. */
  function Stated(member: Option<int>): int {
    match member
    case None => 0
    case Some(n) => n
  }

  /** Some member of the report is present and not zero. */
  predicate States(f: Figures) {
    Stated(f.input) != 0 || Stated(f.cacheRead) != 0 || Stated(f.cacheWrite) != 0 || Stated(f.output) != 0
  }

  /** The one thing sent is this figure, which is now the context; a figure that is not positive is neither. */
  predicate Reports(c: Cycle, d: Cycle, used: int, origin: Origin) {
    if used > 0 then d.context == used && d.sent == c.sent + [Usage(used, origin)] else d.context == c.context && d.sent == c.sent
  }

  /** A top-level message_start opens its call and reports its request: input and both cache figures, where its report
      states anything. */
  lemma OpeningReports(c: Cycle, o: Opening)
    requires InRange(c) && !c.replay
    ensures var d := Project(c, MessageStart(Top, Some(o)), false);
            && d.call == o.id && d.callOpen && d.callStart == (if States(o.usage) then o.usage else Figures(None, None, None, None))
            && Reports(c, d, if States(o.usage) then Stated(o.usage.input) + Stated(o.usage.cacheRead) + Stated(o.usage.cacheWrite) else 0,
                       Request)
  {
    StartSendsNothing(c);
    CallOpens(StartMessage(c, Top), o);
  }

  lemma StartSendsNothing(c: Cycle)
    ensures var d := StartMessage(c, Top); d.context == c.context && d.sent == c.sent && d.replay == c.replay
  {
  }

  lemma CallOpens(c: Cycle, o: Opening)
    ensures var d := OpenCall(c, o);
            && d.call == o.id && d.callOpen && d.callStart == (if States(o.usage) then o.usage else Figures(None, None, None, None))
            && Reports(c, d, if States(o.usage) then Stated(o.usage.input) + Stated(o.usage.cacheRead) + Stated(o.usage.cacheWrite) else 0,
                       Request)
  {
  }

  /** A message_delta closes an open call and reports its request and its output. Each request member comes from the delta
      where the delta states a request at all and that member, and else from the opening; the output is the delta's. */
  lemma ClosingReports(c: Cycle, usage: Figures)
    requires InRange(c) && !c.replay
    ensures var d := Project(c, MessageDelta(Top, usage), false);
            var start := c.callStart;
            var restates := Stated(usage.input) + Stated(usage.cacheRead) + Stated(usage.cacheWrite) > 0;
            var input := if restates && usage.input.Some? then usage.input else start.input;
            var read := if restates && usage.cacheRead.Some? then usage.cacheRead else start.cacheRead;
            var written := if restates && usage.cacheWrite.Some? then usage.cacheWrite else start.cacheWrite;
            var request := Stated(input) + Stated(read) + Stated(written);
            if !c.callOpen then d == c
            else
              && d.call == c.call && !d.callOpen && d.messages == c.messages && d.streams == c.streams
              && Reports(c, d, if States(usage) && request != 0 then request + Stated(usage.output) else 0,
                         CallEnd(c.call, Figures(input, read, written, usage.output)))
  {
  }

  /** A record reports its call's request, without output, if no message_start announced that call. */
  lemma RecordReports(c: Cycle, parent: Parent, id: Id, synthetic: bool, usage: Figures)
    ensures var d := RecordCall(c, parent, id, synthetic, usage);
            if c.replay || parent != Top || synthetic || id.None? || id == c.call then d == c
            else
              && d.call == id && !d.callOpen && d.messages == c.messages && d.streams == c.streams
              && Reports(c, d, Stated(usage.input) + Stated(usage.cacheRead) + Stated(usage.cacheWrite),
                         Record(id, Figures(usage.input, usage.cacheRead, usage.cacheWrite, None)))
  {
  }

  /** A compaction forgets the call and the figure, cancelled or not; a delegated or replayed one changes nothing. */
  lemma CompactionForgets(c: Cycle, parent: Parent, cancelled: bool)
    requires InRange(c)
    ensures var d := Project(c, Compacted(parent), cancelled);
            if parent == Top && !c.replay
            then d.context == 0 && d.call.None? && !d.callOpen && d.sent == c.sent + [Compaction]
                 && d.messages == c.messages && d.streams == c.streams
            else d == c
  {
  }

  /** A cancelled cycle sends and keeps nothing of any other event, nor does a replay of anything but rows. */
  lemma CancelledIsSilent(c: Cycle, e: Event)
    requires InRange(c) && !e.Compacted?
    ensures Project(c, e, true) == c
    ensures c.replay && !e.Assistant? ==> Project(c, e, false) == c
  {
  }

  /******* Which opening a delta falls back to *******/

  /** The last top-level call the inputs opened. */
  function LastStart(inputs: seq<Input>): Option<Opening> {
    if inputs == [] then None
    else
      var last := inputs[|inputs| - 1];
      if last.event.MessageStart? && last.event.parent == Top && last.event.message.Some? && !last.cancelled
      then last.event.message else LastStart(inputs[..|inputs| - 1])
  }

  /** An open call is the last one opened, and keeps what that one's report stated. */
  predicate OpenIs(c: Cycle, start: Option<Opening>) {
    c.callOpen ==>
      && start.Some? && c.call == start.value.id
      && c.callStart == if States(start.value.usage) then start.value.usage else Figures(None, None, None, None)
  }

  lemma {:induction false} TextKeepsCall(c: Cycle, parent: Parent, blocks: seq<Block>)
    requires InRange(c)
    ensures var d := ConsumeAll(c, parent, blocks);
            d.call == c.call && d.callOpen == c.callOpen && d.callStart == c.callStart && d.replay == c.replay
    decreases |blocks|
  {
    if blocks != [] {
      var d, b := ConsumeAll(c, parent, blocks[..|blocks| - 1]), blocks[|blocks| - 1];
      TextKeepsCall(c, parent, blocks[..|blocks| - 1]);
      if b.Prose? {
        assert Used(d, Key(parent, b.kind)) <= |Streamed(d, Key(parent, b.kind))|;
        BlockKeepsCall(d, Key(parent, b.kind), b.text);
      }
    }
  }

  lemma BlockKeepsCall(c: Cycle, key: Key, full: Bytes)
    requires Used(c, key) <= |Streamed(c, key)|
    ensures var d := Consume(c, key, full);
            d.call == c.call && d.callOpen == c.callOpen && d.callStart == c.callStart && d.replay == c.replay
  {
  }

  lemma RowKeepsOpen(c: Cycle, e: Event, start: Option<Opening>)
    requires InRange(c) && e.Assistant? && OpenIs(c, start)
    ensures OpenIs(ProjectAssistant(c, e), start)
  {
    var m := MessageOf(c, e.parent);
    if !AlreadyShown(m, c.replay, e.id, e.row) {
      var d := c.(messages := c.messages[e.parent := Finalize(m, c.replay, e.id, e.row)]);
      KeepsRange(c, d, e.parent);
      TextKeepsCall(d, e.parent, e.blocks);
      RecordReports(ConsumeAll(d, e.parent, e.blocks), e.parent, e.id, e.synthetic, e.usage);
    }
  }

  lemma StreamKeepsOpen(c: Cycle, e: Event, start: Option<Opening>)
    requires InRange(c) && !e.Assistant? && !e.Compacted? && !c.replay && OpenIs(c, start)
    ensures OpenIs(ProjectStream(c, e), if e.MessageStart? && e.parent == Top && e.message.Some? then e.message else start)
  {
    match e {
      case MessageStart(parent, message) => if parent == Top && message.Some? { OpeningReports(c, message.value); }
      case Delta(_, _, _) =>
      case MessageDelta(parent, usage) => if parent == Top { ClosingReports(c, usage); }
    }
  }

  /** In every live run an open call is the last one a message_start opened: what a delta leaves out it takes from there. */
  lemma {:induction false} OpenCallIsLastStart(inputs: seq<Input>)
    ensures InRange(Opened(false)) && !Run(Opened(false), inputs).replay
    ensures OpenIs(Run(Opened(false), inputs), LastStart(inputs))
    decreases |inputs|
  {
    OpenedInRange(false);
    if inputs != [] {
      var last := inputs[|inputs| - 1];
      var c := Run(Opened(false), inputs[..|inputs| - 1]);
      OpenCallIsLastStart(inputs[..|inputs| - 1]);
      ProjectKeepsReplay(c, last.event, last.cancelled);
      if last.event.Compacted? {
        CompactionForgets(c, last.event.parent, last.cancelled);
      } else if !last.cancelled && last.event.Assistant? {
        RowKeepsOpen(c, last.event, LastStart(inputs[..|inputs| - 1]));
      } else if !last.cancelled {
        StreamKeepsOpen(c, last.event, LastStart(inputs[..|inputs| - 1]));
      }
    }
  }
}
