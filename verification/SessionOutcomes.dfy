/**
 What a terminal event says: the outcome a settlement publishes is cancelled where a cancel or a close struck the run
 before its claim, and else the outcome its native run was judged to have, as the settlement's own step was told it.
 */
module SessionOutcomes {
  import opened Options
  import opened SessionState
  import opened SessionMachine
  import opened SessionFacts
  import opened SessionSettlement
  import opened SessionProcesses
  import opened SessionTheorems

  /******* The native outcome a settlement is told *******/

  /** The step judges the run by this native outcome: its prompt's settlement, or a pump's. */
  predicate Judges(st: State, l: Label, f: Fid, native: Outcome)
    requires Enabled(st, l)
  {
    match l
    case PromptL(SettleTurn(told, _)) =>
      st.gate.prompt.Closure? && st.gate.prompt.f == f && st.gate.prompt.stage == Judging && told == native
    case PumpL(g, Settle(told, _)) => st.pumps[g] == Settling(f, Judging) && told == native
    case _ => false
  }

  ghost predicate EverJudges(st: State, ls: seq<Label>, f: Fid, native: Outcome)
    requires Legal(st, ls)
    decreases |ls|
  {
    ls != [] && (Judges(st, ls[0], f, native) || EverJudges(Next(st, ls[0]), ls[1..], f, native))
  }

  lemma OnlyJudgingTells(s: Shared, x: Section, f: Fid, native: Outcome)
    requires Of(s, f).native != Some(native) && Of(Apply(s, x), f).native == Some(native)
    ensures x == Section.Judge(f, native)
  {
  }

  lemma JudgingIsSettling(st: State, l: Label, f: Fid, native: Outcome)
    requires Enabled(st, l) && SectionOf(st, l) == Section.Judge(f, native)
    ensures Judges(st, l, f, native)
  {
  }

  lemma {:induction false} NativeIsTold(st: State, ls: seq<Label>, f: Fid, native: Outcome)
    requires Legal(st, ls) && Of(st.s, f).native != Some(native) && Of(Run(st, ls).s, f).native == Some(native)
    ensures EverJudges(st, ls, f, native)
    decreases |ls|
  {
    var next := Next(st, ls[0]);
    if Of(next.s, f).native == Some(native) {
      OnlyJudgingTells(st.s, SectionOf(st, ls[0]), f, native);
      JudgingIsSettling(st, ls[0], f, native);
    } else {
      NativeIsTold(next, ls[1..], f, native);
    }
  }

  /******* Who cancels a run *******/

  /** The step is a cancel, or the beginning of a close, that finds the run in the foreground. */
  predicate Strikes(st: State, l: Label, f: Fid) {
    && (l.CancelL? || l == CloseL(CloseStep.Begin))
    && (st.s.turn == Some(f) || (st.s.turn.None? && st.s.cycle == Some(f)))
  }

  ghost predicate EverStrikes(st: State, ls: seq<Label>, f: Fid)
    requires Legal(st, ls)
    decreases |ls|
  {
    ls != [] && (Strikes(st, ls[0], f) || EverStrikes(Next(st, ls[0]), ls[1..], f))
  }

  lemma OnlyStrikesCancel(st: State, l: Label, f: Fid)
    requires Enabled(st, l) && !Of(st.s, f).cancelled && Of(Apply(st.s, SectionOf(st, l)), f).cancelled
    ensures Strikes(st, l, f)
  {
    SectionCancels(st.s, SectionOf(st, l), f);
  }

  lemma SectionCancels(s: Shared, x: Section, f: Fid)
    requires !Of(s, f).cancelled && Of(Apply(s, x), f).cancelled
    ensures (x.CancelSlot? && Slot(s) == Some(f)) || (x.StartClose? && s.turn == Some(f))
  {
  }

  lemma {:induction false} CancelledIsStruck(st: State, ls: seq<Label>, f: Fid)
    requires Legal(st, ls) && !Of(st.s, f).cancelled && Of(Run(st, ls).s, f).cancelled
    ensures EverStrikes(st, ls, f)
    decreases |ls|
  {
    if Of(Next(st, ls[0]).s, f).cancelled {
      OnlyStrikesCancel(st, ls[0], f);
    } else {
      CancelledIsStruck(Next(st, ls[0]), ls[1..], f);
    }
  }

  /** A claim reads a cancellation only where there is one. */
  predicate ClaimHonest(v: Foreground) {
    v.claimed == Some(true) ==> v.cancelled
  }

  lemma ClaimStaysHonest(s: Shared, x: Section, f: Fid)
    requires ClaimHonest(Of(s, f))
    ensures ClaimHonest(Of(Apply(s, x), f))
  {
  }

  lemma {:induction false} ClaimsAreHonest(st: State, ls: seq<Label>, f: Fid)
    requires Legal(st, ls) && ClaimHonest(Of(st.s, f))
    ensures ClaimHonest(Of(Run(st, ls).s, f))
    decreases |ls|
  {
    if ls != [] {
      ClaimStaysHonest(st.s, SectionOf(st, ls[0]), f);
      ClaimsAreHonest(Next(st, ls[0]), ls[1..], f);
    }
  }

  /******* The event *******/

  lemma PromptEventReads(st: State, l: Label, f: Fid)
    requires Inv(st) && Publishes(st, l, f) && st.s.fg[f].kind.Prompted?
    ensures var v := st.s.fg[f];
            && SectionOf(st, l).t.via.Settlement? && v.claimed.Some? && v.native.Some? && v.ended == Settled && !v.commitFailed
            && SectionOf(st, l).t.outcome == if v.claimed == Some(true) then Cancelled else v.native.value
  {
    PromptPublishes(st, l, f);
    assert RunSound(st.s.fg[f], st.close);
    PromptAtEvent(st, l, f);
  }

  lemma PromptAtEvent(st: State, l: Label, f: Fid)
    requires Inv(st) && Publishes(st, l, f) && st.s.fg[f].kind.Prompted?
    ensures var v := st.s.fg[f]; v.claimed.Some? && v.ended == Settled && !v.commitFailed
  {
  }

  /** A prompt's terminal event: cancelled if its claim found it struck, and else the outcome its own settlement was told
      the native run had; nothing that met a failed commit or a lost transport has one. */
  lemma PromptEventIsTold(ephemeral: bool, ls: seq<Label>, l: Label, f: Fid)
    requires Legal(Init(ephemeral), ls) && Publishes(Run(Init(ephemeral), ls), l, f)
    requires Of(Run(Init(ephemeral), ls).s, f).kind.Prompted?
    ensures var st := Run(Init(ephemeral), ls);
            var v := st.s.fg[f];
            && v.claimed.Some? && v.ended == Settled && !v.commitFailed
            && if v.claimed == Some(true) then SectionOf(st, l).t.outcome == Cancelled && EverStrikes(Init(ephemeral), ls, f)
               else EverJudges(Init(ephemeral), ls, f, SectionOf(st, l).t.outcome)
  {
    Reached(ephemeral, ls);
    var st := Run(Init(ephemeral), ls);
    PromptEventReads(st, l, f);
    if st.s.fg[f].claimed == Some(true) {
      ClaimsAreHonest(Init(ephemeral), ls, f);
      CancelledIsStruck(Init(ephemeral), ls, f);
    } else {
      NativeIsTold(Init(ephemeral), ls, f, SectionOf(st, l).t.outcome);
    }
  }

  lemma AgentEventReads(st: State, l: Label, f: Fid)
    requires Inv(st) && Publishes(st, l, f) && st.s.fg[f].kind.Agent? && SectionOf(st, l).t.via.Settlement?
    ensures var v := st.s.fg[f];
            if v.cancelled then SectionOf(st, l).t.outcome == Cancelled
            else v.native.Some? && SectionOf(st, l).t.outcome == v.native.value
  {
    assert RunSound(st.s.fg[f], st.close);
    AgentAtEvent(st, l, f);
  }

  lemma AgentAtEvent(st: State, l: Label, f: Fid)
    requires Inv(st) && Publishes(st, l, f) && st.s.fg[f].kind.Agent? && SectionOf(st, l).t.via.Settlement?
    ensures st.s.fg[f].claimed.Some? && SectionOf(st, l).t.outcome == Verdict(st.s, f)
  {
    if l.PumpL? { assert PumpSound(st.s, st.pumps[l.g]); }
  }

  /** A settled agent run's terminal event: cancelled if a cancel struck the run, and else an outcome a settlement of it
      was told. */
  lemma AgentEventIsTold(ephemeral: bool, ls: seq<Label>, l: Label, f: Fid)
    requires Legal(Init(ephemeral), ls) && Publishes(Run(Init(ephemeral), ls), l, f)
    requires Of(Run(Init(ephemeral), ls).s, f).kind.Agent? && SectionOf(Run(Init(ephemeral), ls), l).t.via.Settlement?
    ensures var st := Run(Init(ephemeral), ls);
            if st.s.fg[f].cancelled then SectionOf(st, l).t.outcome == Cancelled && EverStrikes(Init(ephemeral), ls, f)
            else EverJudges(Init(ephemeral), ls, f, SectionOf(st, l).t.outcome)
  {
    Reached(ephemeral, ls);
    var st := Run(Init(ephemeral), ls);
    AgentEventReads(st, l, f);
    if st.s.fg[f].cancelled {
      CancelledIsStruck(Init(ephemeral), ls, f);
    } else {
      NativeIsTold(Init(ephemeral), ls, f, SectionOf(st, l).t.outcome);
    }
  }
}
