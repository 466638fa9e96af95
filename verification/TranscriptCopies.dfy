/** A second copy of an assistant row, wherever it stands in its turn: exactly what it
    changes in the transcript. */
module TranscriptCopies {
  import opened Wrappers
  import opened TranscriptTypes
  import opened TranscriptFold
  import opened TranscriptViews
  import opened TranscriptDecomposition
  import opened TranscriptDuplicates
  import opened TranscriptPrompts
  import opened TranscriptStamps
  import opened TranscriptContent

  // ---------------------------------------------------------------- the stamps of two transcripts

  function TurnStamps(t: Turn): (Option<int>, Option<string>) {
    if t.AssistantTurn? then (t.durationMs, t.endedAt) else (None, None)
  }

  function GroupStamps(g: Group): (Option<int>, Option<string>) {
    (g.durationMs, g.lastRowEndedAt)
  }

  /** The same turn but for tool outputs, start stamps and timings. */
  ghost predicate TurnEq(t: Turn, u: Turn) {
    TurnAlike(t, u) && TurnStamps(t) == TurnStamps(u)
  }

  ghost predicate TurnsEq(a: seq<Turn>, b: seq<Turn>) {
    |a| == |b| && forall i :: 0 <= i < |a| ==> TurnEq(a[i], b[i])
  }

  /** The same durations and ends, but for turn `n`, flushed or still open. */
  ghost predicate SameStampsBut(a: State, b: State, n: int) {
    && |a.turns| == |b.turns|
    && (forall i :: 0 <= i < |a.turns| && i != n ==> TurnStamps(a.turns[i]) == TurnStamps(b.turns[i]))
    && (a.group.Some? && b.group.Some? && |a.turns| != n ==>
          GroupStamps(a.group.value) == GroupStamps(b.group.value))
  }

  lemma FlushStamps(env: Env, s: State, settle: bool)
    ensures var r := Flush(env, s, settle);
            && r.group.None? && s.turns <= r.turns
            && |r.turns| == |s.turns| + (if s.group.Some? then 1 else 0)
            && (s.group.Some? ==>
                  TurnStamps(r.turns[|s.turns|])
                  == (s.group.value.durationMs, NonEmpty(s.group.value.lastRowEndedAt)))
  {
    if s.group.Some? { FlushedEnd(env, s, settle); }
  }

  lemma FlushStampsBut(env: Env, a: State, b: State, settle: bool, n: int)
    requires StateEq(a, b) && SameStampsBut(a, b, n)
    ensures SameStampsBut(Flush(env, a, settle), Flush(env, b, settle), n)
  {
    hide Flush, TurnStamps, NonEmpty, GroupEq;
    FlushStamps(env, a, settle);
    FlushStamps(env, b, settle);
    var x, y := Flush(env, a, settle).turns, Flush(env, b, settle).turns;
    forall i | 0 <= i < |x| && i != n ensures TurnStamps(x[i]) == TurnStamps(y[i]) {
      if i < |a.turns| { assert x[i] == a.turns[i] && y[i] == b.turns[i]; }
    }
  }

  lemma RowGroupStamps(env: Env, g: Group, h: Group, m: Message)
    ensures GroupStamps(g) == GroupStamps(h) ==>
              GroupStamps(FoldRow(env, g, m)) == GroupStamps(FoldRow(env, h, m))
  {
    hide FoldRow;
    FoldRowStamps(env, g, m);
    FoldRowStamps(env, h, m);
  }

  lemma AssistantStampsBut(env: Env, a: State, b: State, m: Message, n: int)
    requires StateEq(a, b) && SameStampsBut(a, b, n)
    ensures SameStampsBut(AssistantStep(env, a, m), AssistantStep(env, b, m), n)
  {
    hide Flush, FoldRow, TurnStamps;
    FlushStampsBut(env, a, b, true, n);
    if a.group.Some? { RowGroupStamps(env, a.group.value, b.group.value, m); }
  }

  lemma BoundaryStampsBut(env: Env, a: State, b: State, m: Message, n: int)
    requires StateEq(a, b) && SameStampsBut(a, b, n)
    ensures SameStampsBut(BoundaryStep(env, a, m), BoundaryStep(env, b, m), n)
  {
    hide Flush, TurnStamps, StateEq;
    FlushStampsBut(env, a, b, true, n);
    var x, y := Flush(env, a, true), Flush(env, b, true);
    FlushStamps(env, a, true);
    FlushStamps(env, b, true);
    if HasOwnTurn(m) {
      assert TurnStamps(OwnTurn(env, m, x.no)) == TurnStamps(OwnTurn(env, m, y.no)) by {
        OwnTurnHasNoStamps(env, m, x.no);
        OwnTurnHasNoStamps(env, m, y.no);
      }
    }
  }

  lemma OwnTurnHasNoStamps(env: Env, m: Message, no: nat)
    requires HasOwnTurn(m)
    ensures TurnStamps(OwnTurn(env, m, no)) == (None, None)
  {}

  lemma StepStampsBut(env: Env, a: State, b: State, m: Message, rest: seq<Message>, n: int)
    requires StateEq(a, b) && SameStampsBut(a, b, n)
    ensures SameStampsBut(Step(env, a, m, rest), Step(env, b, m, rest), n)
  {
    hide AssistantStep, BoundaryStep, Absorb, InlineBlock, TurnStamps, TurnsAlike;
    assert GoesInline(a, m, rest) == GoesInline(b, m, rest);
    AssistantStampsBut(env, a, b, m, n);
    BoundaryStampsBut(env, a, b, m, n);
    if a.group.Some? {
      AbsorbKeepsStamps(env, a.group.value, m.content);
      AbsorbKeepsStamps(env, b.group.value, m.content);
    }
  }

  /** Two transcripts whose states are alike at some point and that go on alike. */
  lemma {:induction false} GoOnAlike(env: Env, x: seq<Message>, k: nat, y: seq<Message>, l: nat, n: int)
    requires k <= |x| && l <= |y| && x[k..] == y[l..]
    requires StateEq(StateAt(env, x, k), StateAt(env, y, l))
    requires SameStampsBut(StateAt(env, x, k), StateAt(env, y, l), n)
    ensures SameStampsBut(StateAt(env, x, |x|), StateAt(env, y, |y|), n)
    decreases |x| - k
  {
    hide Step, StateEq, SameStampsBut;
    assert |x| - k == |x[k..]| == |y[l..]| == |y| - l;
    if k < |x| {
      assert x[k] == x[k..][0] == y[l..][0] == y[l];
      assert x[k + 1..] == x[k..][1..] == y[l..][1..] == y[l + 1..];
      NextSame(env, x, k, y, l);
      StepStampsBut(env, StateAt(env, x, k), StateAt(env, y, l), x[k], x[k + 1..], n);
      GoOnAlike(env, x, k + 1, y, l + 1, n);
    }
  }

  /** So their turns are alike, with the same stamps but for turn `n`. */
  lemma TurnsGoOnAlike(env: Env, x: seq<Message>, k: nat, y: seq<Message>, l: nat, n: int, active: bool)
    requires k <= |x| && l <= |y| && x[k..] == y[l..]
    requires StateEq(StateAt(env, x, k), StateAt(env, y, l))
    requires SameStampsBut(StateAt(env, x, k), StateAt(env, y, l), n)
    ensures var t, u := Turns(env, x, active), Turns(env, y, active);
            && TurnsAlike(t, u)
            && (forall i :: 0 <= i < |t| && i != n ==> TurnStamps(t[i]) == TurnStamps(u[i]))
  {
    hide StateAt, Flush, TurnStamps, TurnAlike, GroupEq;
    SuffixSame(env, x, k, y, l);
    GoOnAlike(env, x, k, y, l, n);
    FlushEq(env, StateAt(env, x, |x|), StateAt(env, y, |y|), !active);
    FlushStampsBut(env, StateAt(env, x, |x|), StateAt(env, y, |y|), !active, n);
  }

  lemma AlikeWithStamps(t: seq<Turn>, u: seq<Turn>, n: int)
    requires TurnsAlike(t, u)
    requires forall i :: 0 <= i < |t| && i != n ==> TurnStamps(t[i]) == TurnStamps(u[i])
    ensures TurnsEq(t, u) <==> (0 <= n < |t| ==> TurnStamps(t[n]) == TurnStamps(u[n]))
  {
    hide TurnAlike, TurnStamps;
    if 0 <= n < |t| && TurnsEq(t, u) { assert TurnEq(t[n], u[n]); }
  }

  // ---------------------------------------------------------------- a covered row, anywhere

  /** `copy` is recognised by the open group `g`: it belongs to the group's known prompt and
      says nothing that some row folded into the group does not say. */
  ghost predicate IsCovered(env: Env, g: Group, copy: Message) {
    && Classify(copy) == AssistantRow && g.promptId.Some? && Continues(g.promptId, copy.promptId)
    && AlreadyFolded(g, SigOf(env, copy.content))
  }

  lemma NonRowKeepsPrompt(env: Env, s: State, m: Message, rest: seq<Message>)
    requires m.role != AssistantRole
    ensures var s' := Step(env, s, m, rest);
            s'.group.Some? ==> s.group.Some? && s'.group.value.promptId == s.group.value.promptId
  {
    hide Flush, Absorb, OwnTurn, InlineBlock;
    assert Flush(env, s, true).group.None? by { FlushStamps(env, s, true); }
    if s.group.Some? { AbsorbKeepsStamps(env, s.group.value, m.content); }
  }

  /** Behind the last assistant row the open group keeps its prompt. */
  lemma {:induction false} TailKeepsPrompt(env: Env, p: seq<Message>, i: nat)
    requires i <= |p| && NextAssistant(p[i..]).None? && StateAt(env, p, |p|).group.Some?
    ensures var g := StateAt(env, p, i).group;
            g.Some? && g.value.promptId == StateAt(env, p, |p|).group.value.promptId
    decreases |p| - i
  {
    hide Step;
    if i < |p| {
      assert p[i..][0] == p[i] && p[i..][1..] == p[i + 1..];
      TailKeepsPrompt(env, p, i + 1);
      NonRowKeepsPrompt(env, StateAt(env, p, i), p[i], p[i + 1..]);
    }
  }

  /** A covered row behind `p` never places a notice of `p` differently. */
  lemma CopyAgrees(env: Env, p: seq<Message>, copy: Message, q: seq<Message>)
    requires StateAt(env, p, |p|).group.Some? && IsCovered(env, StateAt(env, p, |p|).group.value, copy)
    ensures NoticesAgree(env, p, [copy] + q, |p|)
  {
    hide StateAt, Covers, SigOf;
    forall i | 0 <= i < |p| ensures NoticeAgrees(env, p, [copy] + q, i) {
      if Classify(p[i]) == NoticeRow && NextAssistant(p[i + 1..]).None? {
        assert p[i..][0] == p[i] && p[i..][1..] == p[i + 1..];
        TailKeepsPrompt(env, p, i);
      }
    }
  }

  /** What the copy does to the open group. */
  lemma CoveredStep(env: Env, s: State, copy: Message)
    requires StateInv(s) && s.group.Some? && IsCovered(env, s.group.value, copy)
    ensures var s', g := AssistantStep(env, s, copy), s.group.value;
            && StateEq(s, s') && s'.turns == s.turns && SameStampsBut(s, s', |s.turns|)
            && s'.group.Some? && s'.group.value.promptId == g.promptId
            && s'.group.value.lastRowEndedAt == copy.endedAt
            && s'.group.value.durationMs == (if copy.durationMs.Some? then copy.durationMs else g.durationMs)
  {
    hide MergeExtras, SigOf, Covers, GroupInv, RepeatsRun, Absorb;
    var g := s.group.value;
    var r := Stamped(g, copy);
    assert AlreadyFolded(r, SigOf(env, copy.content));
    FoldRowStamps(env, g, copy);
    assert GroupInv(r) by { StampsKeepInv(g, r); }
    MergeEq(r, copy.content);
    assert GroupEq(g, r) by { SelfEq(g); }
    GroupEqTransitive(g, r, MergeExtras(r, copy.content));
    SelfTurnsAlike(s.turns);
  }

  /** The states before and behind the copy, if no notice is placed differently. */
  lemma CoveredStates(env: Env, p: seq<Message>, copy: Message, q: seq<Message>)
    requires StateAt(env, p, |p|).group.Some? && IsCovered(env, StateAt(env, p, |p|).group.value, copy)
    ensures StateAt(env, p + [copy] + q, |p| + 1) == AssistantStep(env, StateAt(env, p, |p|), copy)
    ensures NoticesAgree(env, p, q, |p|) ==> StateAt(env, p + q, |p|) == StateAt(env, p, |p|)
  {
    hide NoticesAgree, AssistantStep, IsCovered;
    var two := p + [copy] + q;
    assert two == p + ([copy] + q) && two[|p|] == copy;
    CopyAgrees(env, p, copy, q);
    PrefixUnaffected(env, p, [copy] + q, |p|);
    assert Classify(copy) == AssistantRow by { CoveredIsRow(env, StateAt(env, p, |p|).group.value, copy); }
    if NoticesAgree(env, p, q, |p|) { PrefixUnaffected(env, p, q, |p|); }
  }

  lemma CoveredIsRow(env: Env, g: Group, copy: Message)
    requires IsCovered(env, g, copy)
    ensures Classify(copy) == AssistantRow
  {}

  lemma {:induction false} BlocksEqKeepsCount(a: seq<Block>, b: seq<Block>)
    requires BlocksEq(a, b)
    ensures NoticeCount(a) == NoticeCount(b)
  {
    if a != [] {
      var n := |a| - 1;
      assert BlockEq(a[n], b[n]);
      forall i | 0 <= i < n ensures BlockEq(a[..n][i], b[..n][i]) { assert BlockEq(a[i], b[i]); }
      BlocksEqKeepsCount(a[..n], b[..n]);
    }
  }

  /** A notice that is placed differently shows: the copy keeps it inside the turn. */
  lemma NoticeTellsCopy(env: Env, p: seq<Message>, copy: Message, q: seq<Message>, active: bool)
    requires StateAt(env, p, |p|).group.Some? && IsCovered(env, StateAt(env, p, |p|).group.value, copy)
    requires !NoticesAgree(env, p, q, |p|)
    ensures !TurnsAlike(Turns(env, p + q, active), Turns(env, p + [copy] + q, active))
  {
    hide StateAt, Turns, IsCovered, BlocksEq;
    var i := FirstDisagreement(env, p, q, |p|);
    var one, two := p + q, p + [copy] + q;
    assert two == p + ([copy] + q) && one[i] == p[i] && two[i] == p[i];
    CopyAgrees(env, p, copy, q);
    PrefixUnaffected(env, p, q, i);
    PrefixUnaffected(env, p, [copy] + q, i);
    NoticeAgreesSteered(env, p, q, i);
    NoticeAgreesSteered(env, p, [copy] + q, i);
    StandaloneNoticeCuts(env, one, i, active);
    FoldedNoticeCounts(env, two, i, active);
    var n := |StateAt(env, p, i).turns|;
    var t, u := Turns(env, one, active), Turns(env, two, active);
    assert NoticeCount(BlocksOf(t[n])) != NoticeCount(BlocksOf(u[n]));
    if TurnAlike(t[n], u[n]) { AlikeKeepsCount(t[n], u[n]); }
  }

  lemma AlikeKeepsCount(t: Turn, u: Turn)
    requires TurnAlike(t, u)
    ensures NoticeCount(BlocksOf(t)) == NoticeCount(BlocksOf(u))
  {
    if t.AssistantTurn? && u.AssistantTurn? { BlocksEqKeepsCount(BlocksOf(t), BlocksOf(u)); }
  }

  lemma FoldedNoticeCounts(env: Env, p: seq<Message>, i: nat, active: bool)
    requires i < |p| && Classify(p[i]) == NoticeRow
    requires Steered(StateAt(env, p, i).group, p[i + 1..])
    ensures var s, t := StateAt(env, p, i), Turns(env, p, active);
            |s.turns| < |t| && NoticeCount(BlocksOf(t[|s.turns|])) > NoticeCount(s.group.value.blocks)
  {
    hide StateAt;
    FoldedNoticeStays(env, p, i, active);
  }

  /** A covered row shows nothing, wherever it stands: with and without it the turns are
      alike but for durations and ends, if and only if no notice in front of it is placed
      differently because of what comes behind. */
  lemma CoveredRowShowsNothingIff(env: Env, p: seq<Message>, copy: Message, q: seq<Message>, active: bool)
    requires StateAt(env, p, |p|).group.Some? && IsCovered(env, StateAt(env, p, |p|).group.value, copy)
    ensures TurnsAlike(Turns(env, p + q, active), Turns(env, p + [copy] + q, active))
            <==> NoticesAgree(env, p, q, |p|)
  {
    hide NoticesAgree, TurnsAlike, Turns, StateEq, SameStampsBut, AssistantStep, IsCovered;
    if NoticesAgree(env, p, q, |p|) {
      var n := CoveredGoesOn(env, p, copy, q, active);
    } else {
      NoticeTellsCopy(env, p, copy, q, active);
    }
  }

  lemma CoveredGoesOn(env: Env, p: seq<Message>, copy: Message, q: seq<Message>, active: bool) returns (n: nat)
    requires StateAt(env, p, |p|).group.Some? && IsCovered(env, StateAt(env, p, |p|).group.value, copy)
    requires NoticesAgree(env, p, q, |p|)
    ensures n == |StateAt(env, p, |p|).turns|
    ensures var t, u := Turns(env, p + q, active), Turns(env, p + [copy] + q, active);
            && TurnsAlike(t, u)
            && (forall i :: 0 <= i < |t| && i != n ==> TurnStamps(t[i]) == TurnStamps(u[i]))
  {
    hide NoticesAgree, TurnsAlike, Turns, StateEq, SameStampsBut, AssistantStep, IsCovered, StateAt, TurnStamps, StateInv;
    var one, two := p + q, p + [copy] + q;
    var s := StateAt(env, p, |p|);
    n := |s.turns|;
    CoveredStates(env, p, copy, q);
    StatesKeep(env, p, |p|);
    CoveredStep(env, s, copy);
    assert one[|p|..] == q == two[|p| + 1..];
    TurnsGoOnAlike(env, one, |p|, two, |p| + 1, n, active);
  }

  /** Exactly when a covered row changes no turn at all, wherever it stands: no notice in
      front of it is placed differently; the turn's end is decided by a later row, or is
      what the copy says; and so for its duration, which a copy need not bring. */
  lemma CoveredRowIsInvisibleIff(env: Env, p: seq<Message>, copy: Message, q: seq<Message>, active: bool)
    requires StateAt(env, p, |p|).group.Some? && IsCovered(env, StateAt(env, p, |p|).group.value, copy)
    ensures var g := StateAt(env, p, |p|).group.value;
            TurnsEq(Turns(env, p + q, active), Turns(env, p + [copy] + q, active)) <==>
              && NoticesAgree(env, p, q, |p|)
              && (RowFollows(q, g.promptId) || NonEmpty(g.lastRowEndedAt) == NonEmpty(copy.endedAt))
              && (TimedRowFollows(q, g.promptId) || copy.durationMs.None? || g.durationMs == copy.durationMs)
  {
    hide NoticesAgree, TurnsAlike, TurnAlike, Turns, IsCovered, StateAt, TurnStamps, RowFollows, TimedRowFollows, NonEmpty;
    var t, u := Turns(env, p + q, active), Turns(env, p + [copy] + q, active);
    CoveredRowShowsNothingIff(env, p, copy, q, active);
    if NoticesAgree(env, p, q, |p|) {
      var n := CoveredGoesOn(env, p, copy, q, active);
      AlikeWithStamps(t, u, n);
      CoveredStampsIff(env, p, copy, q, active);
    } else {
      assert !TurnsEq(t, u) by { if TurnsEq(t, u) { EqIsAlike(t, u); } }
    }
  }

  lemma EqIsAlike(t: seq<Turn>, u: seq<Turn>)
    requires TurnsEq(t, u)
    ensures TurnsAlike(t, u)
  {
    forall i | 0 <= i < |t| ensures TurnAlike(t[i], u[i]) { assert TurnEq(t[i], u[i]); }
  }

  lemma CoveredStampsIff(env: Env, p: seq<Message>, copy: Message, q: seq<Message>, active: bool)
    requires StateAt(env, p, |p|).group.Some? && IsCovered(env, StateAt(env, p, |p|).group.value, copy)
    requires NoticesAgree(env, p, q, |p|)
    ensures var n, g := |StateAt(env, p, |p|).turns|, StateAt(env, p, |p|).group.value;
            var t, u := Turns(env, p + q, active), Turns(env, p + [copy] + q, active);
            && n < |t| && n < |u|
            && (TurnStamps(t[n]) == TurnStamps(u[n]) <==>
                  && (RowFollows(q, g.promptId) || NonEmpty(g.lastRowEndedAt) == NonEmpty(copy.endedAt))
                  && (TimedRowFollows(q, g.promptId) || copy.durationMs.None? || g.durationMs == copy.durationMs))
  {
    hide NoticesAgree, Turns, AssistantStep, StateAt, StateEq, SameStampsBut, NonEmpty, StateInv;
    var one, two := p + q, p + [copy] + q;
    var s := StateAt(env, p, |p|);
    var g := s.group.value;
    CoveredStates(env, p, copy, q);
    StatesKeep(env, p, |p|);
    CoveredStep(env, s, copy);
    assert one[|p|..] == q == two[|p| + 1..];
    TurnEnds(env, one, |p|, active);
    TurnEnds(env, two, |p| + 1, active);
    var d := if copy.durationMs.Some? then copy.durationMs else g.durationMs;
    LastEndedDepends(q, g.promptId, g.lastRowEndedAt, copy.endedAt);
    LastEndedDepends(q, g.promptId, copy.endedAt, copy.endedAt);
    LastDurationDepends(q, g.promptId, g.durationMs, d);
    LastDurationDepends(q, g.promptId, d, d);
  }

  // ---------------------------------------------------------------- a copy further on in its turn

  /** Nothing in `r` ends the turn of the prompt `pid`: no hard boundary, and no assistant
      row of another prompt. */
  ghost predicate StaysWith(r: seq<Message>, pid: Option<string>) {
    forall i :: 0 <= i < |r| ==>
      !IsHardBoundary(r[i]) && (Classify(r[i]) == AssistantRow ==> Continues(pid, r[i].promptId))
  }

  /** Some notice of `r` looks for its assistant row behind `r`. */
  ghost predicate NoticeWaits(r: seq<Message>) {
    exists i :: 0 <= i < |r| && Classify(r[i]) == NoticeRow && NextAssistant(r[i + 1..]).None?
  }

  /** A step that keeps the group open keeps the signatures on record. */
  lemma StepKeepsSigs(env: Env, s: State, m: Message, rest: seq<Message>, sig: ContentSig)
    requires s.group.Some? && s.group.value.promptId.Some? && AlreadyFolded(s.group.value, sig)
    requires !IsHardBoundary(m) && (Classify(m) == AssistantRow ==> Continues(s.group.value.promptId, m.promptId))
    requires Classify(m) == NoticeRow ==> Steered(s.group, rest)
    ensures var s' := Step(env, s, m, rest);
            && s'.turns == s.turns && s'.group.Some? && AlreadyFolded(s'.group.value, sig)
            && s'.group.value.promptId == s.group.value.promptId
  {
    hide Covers, SigOf, Absorb, MergeExtras, InlineBlock, Flush;
    var g := s.group.value;
    var g1 := Stamped(g, m);
    AbsorbKeepsStamps(env, g, m.content);
    AbsorbKeepsStamps(env, g1.(foldedSigs := g1.foldedSigs + [SigOf(env, m.content)]), m.content);
    MergeOnlyFills(g1, m.content);
    var i :| 0 <= i < |g.foldedSigs| && Covers(g.foldedSigs[i], sig);
    assert g.foldedSigs[i] == (g.foldedSigs + [SigOf(env, m.content)])[i];
  }

  lemma {:induction false} NextRowContinues(r: seq<Message>, pid: Option<string>)
    requires StaysWith(r, pid)
    ensures NextAssistant(r).Some? ==> Continues(pid, NextAssistant(r).value.promptId)
  {
    if r != [] && r[0].role != AssistantRole { NextRowContinues(r[1..], pid); }
  }

  lemma NoticeStays(s: State, r: seq<Message>)
    requires s.group.Some? && StaysWith(r, s.group.value.promptId)
    ensures Steered(s.group, r)
  {
    NextRowContinues(r, s.group.value.promptId);
  }

  /** One message that does not end the turn. */
  lemma GoOnStep(env: Env, s: State, m: Message, rest: seq<Message>, sig: ContentSig)
    requires s.group.Some? && s.group.value.promptId.Some? && AlreadyFolded(s.group.value, sig)
    requires !IsHardBoundary(m) && (Classify(m) == AssistantRow ==> Continues(s.group.value.promptId, m.promptId))
    requires StaysWith(rest, s.group.value.promptId)
    ensures var s', pid := Step(env, s, m, rest), s.group.value.promptId;
            && s'.turns == s.turns && s'.group.Some? && s'.group.value.promptId == pid
            && AlreadyFolded(s'.group.value, sig)
            && LastEnded([m] + rest, pid, s.group.value.lastRowEndedAt)
               == LastEnded(rest, pid, s'.group.value.lastRowEndedAt)
            && LastDuration([m] + rest, pid, s.group.value.durationMs)
               == LastDuration(rest, pid, s'.group.value.durationMs)
  {
    hide Step, AlreadyFolded, LastEnded, LastDuration, IsHardBoundary, Continues, StaysWith, GoesInline, Steered;
    NoticeStays(s, rest);
    StepKeepsSigs(env, s, m, rest, sig);
    StepEnd(env, s, m, rest);
    LastEndedStep(s, m, rest);
    NotFlushed(s, m, rest);
  }

  lemma StaysBehind(r: seq<Message>, j: nat, pid: Option<string>)
    requires StaysWith(r, pid) && j <= |r|
    ensures StaysWith(r[j..], pid)
  {}

  /** While nothing ends the turn, the group of `m` stays open and remembers what `m` said. */
  lemma {:induction false} GroupGoesOn(env: Env, p: seq<Message>, m: Message, r: seq<Message>, j: nat)
    requires Classify(m) == AssistantRow && m.promptId.Some? && StaysWith(r, m.promptId) && j <= |r|
    ensures var s0, s := StateAt(env, p + [m] + r, |p| + 1), StateAt(env, p + [m] + r, |p| + 1 + j);
            && s0.group.Some? && s.group.Some? && s.turns == s0.turns
            && s.group.value.promptId == m.promptId
            && AlreadyFolded(s.group.value, SigOf(env, m.content))
            && LastEnded(r[j..], m.promptId, s.group.value.lastRowEndedAt) == LastEnded(r, m.promptId, m.endedAt)
            && LastDuration(r[j..], m.promptId, s.group.value.durationMs)
               == LastDuration(r, m.promptId, s0.group.value.durationMs)
  {
    hide StateAt, Step, AssistantStep, AlreadyFolded, SigOf, LastEnded, LastDuration, IsHardBoundary, Continues, Classify;
    var all := p + [m] + r;
    OneStep(env, all, |p| + j);
    if j == 0 {
      assert all[|p|] == m && r[0..] == r;
      RowOnRecord(env, StateAt(env, all, |p|), m, all[|p| + 1..]);
    } else {
      GroupGoesOn(env, p, m, r, j - 1);
      assert all[|p| + j] == r[j - 1] && all[|p| + j + 1..] == r[j..];
      assert r[j - 1..] == [r[j - 1]] + r[j..];
      StaysBehind(r, j, m.promptId);
      GoOnStep(env, StateAt(env, all, |p| + j), r[j - 1], r[j..], SigOf(env, m.content));
    }
  }

  lemma NotFlushed(s: State, m: Message, rest: seq<Message>)
    requires s.group.Some? && !IsHardBoundary(m)
    requires Classify(m) == AssistantRow ==> Continues(s.group.value.promptId, m.promptId)
    requires Classify(m) == NoticeRow ==> Steered(s.group, rest)
    ensures || (Classify(m) == AssistantRow && Continues(s.group.value.promptId, m.promptId))
            || Classify(m) == SkippedRow || Classify(m) == ToolResultRow || GoesInline(s, m, rest)
  {}

  lemma RowOnRecord(env: Env, s: State, m: Message, rest: seq<Message>)
    requires Classify(m) == AssistantRow && m.promptId.Some?
    ensures var s' := Step(env, s, m, rest);
            && s' == AssistantStep(env, s, m)
            && s'.group.Some? && s'.group.value.promptId == m.promptId && s'.group.value.lastRowEndedAt == m.endedAt
            && AlreadyFolded(s'.group.value, SigOf(env, m.content))
            && (m.durationMs.Some? ==> s'.group.value.durationMs == m.durationMs)
  {
    hide Flush, FoldRow, SigOf, AlreadyFolded;
    var g := if ContinuesGroup(s.group, m.promptId) then s.group.value else NewGroup(m);
    FoldRowStamps(env, g, m);
    SecondCopyRecognisedIff(env, g, m);
  }

  /** So a copy that comes later in the turn is covered. */
  lemma CopyIsCovered(env: Env, p: seq<Message>, m: Message, r: seq<Message>, copy: Message)
    requires IsCopyOf(env, copy, m) && StaysWith(r, m.promptId)
    ensures var all := p + [m] + r;
            var s := StateAt(env, all, |all|);
            && s.group.Some? && IsCovered(env, s.group.value, copy)
            && s.group.value.promptId == m.promptId
            && s.group.value.lastRowEndedAt == LastEnded(r, m.promptId, m.endedAt)
            && StateAt(env, all, |p| + 1).group.Some?
            && s.group.value.durationMs
               == LastDuration(r, m.promptId, StateAt(env, all, |p| + 1).group.value.durationMs)
            && |s.turns| == Slot(env, all, |p|)
  {
    hide StateAt, SigOf, Covers;
    GroupGoesOn(env, p, m, r, |r|);
    var all := p + [m] + r;
    var g := StateAt(env, all, |all|).group.value;
    assert r[|r|..] == [];
    NoneFollow(m.promptId, g.lastRowEndedAt, g.durationMs);
    var i :| 0 <= i < |g.foldedSigs| && Covers(g.foldedSigs[i], SigOf(env, m.content));
    CoversIsPreorder(g.foldedSigs[i], SigOf(env, m.content), SigOf(env, copy.content));
  }

  /** An assistant row settles where the notices in front of it go. */
  lemma NoticeBeforeRow(env: Env, p: seq<Message>, m: Message, r: seq<Message>, q: seq<Message>, i: nat)
    requires Classify(m) == AssistantRow && i <= |p|
    ensures NoticeAgrees(env, p + [m] + r, q, i)
  {
    hide StateAt, Continues;
    var all := p + [m] + r;
    if i < |p| {
      assert all[i + 1..] == p[i + 1..] + ([m] + r);
      NextAssistantConcat(p[i + 1..], [m] + r);
    } else {
      assert all[i] == m;
    }
  }

  lemma NoticeBehindRow(env: Env, p: seq<Message>, m: Message, r: seq<Message>, q: seq<Message>, j: nat)
    requires Classify(m) == AssistantRow && m.promptId.Some? && StaysWith(r, m.promptId) && j < |r|
    ensures NoticeAgrees(env, p + [m] + r, q, |p| + 1 + j) <==>
              (Classify(r[j]) == NoticeRow && NextAssistant(r[j + 1..]).None? ==>
                 NextAssistant(q).None? || Continues(m.promptId, NextAssistant(q).value.promptId))
  {
    hide StateAt, IsHardBoundary, Continues, AlreadyFolded, StaysWith, Classify, NextAssistant, LastEnded, LastDuration;
    var all := p + [m] + r;
    GroupGoesOn(env, p, m, r, j);
    assert all[|p| + 1 + j] == r[j] && all[|p| + 1 + j + 1..] == r[j + 1..];
  }

  /** The notices in front of the copy, judged from the messages alone. */
  lemma NoticesAgreeIff(env: Env, p: seq<Message>, m: Message, r: seq<Message>, q: seq<Message>)
    requires Classify(m) == AssistantRow && m.promptId.Some? && StaysWith(r, m.promptId)
    ensures NoticesAgree(env, p + [m] + r, q, |p + [m] + r|) <==>
              || !NoticeWaits(r) || NextAssistant(q).None?
              || Continues(m.promptId, NextAssistant(q).value.promptId)
  {
    hide NoticeAgrees, StaysWith, Continues, Classify, NextAssistant;
    var all := p + [m] + r;
    if !NoticeWaits(r) || NextAssistant(q).None? || Continues(m.promptId, NextAssistant(q).value.promptId) {
      forall i | 0 <= i < |all| ensures NoticeAgrees(env, all, q, i) {
        if i <= |p| { NoticeBeforeRow(env, p, m, r, q, i); } else { NoticeBehindRow(env, p, m, r, q, i - |p| - 1); }
      }
    } else {
      var j :| 0 <= j < |r| && Classify(r[j]) == NoticeRow && NextAssistant(r[j + 1..]).None?;
      NoticeBehindRow(env, p, m, r, q, j);
    }
  }

  /** Exactly when a copy changes no turn, wherever it stands in the turn of its row: no
      notice between the two is placed differently, the last row before the copy ended as
      the copy does or a later row decides, and so for the duration. */
  lemma CopyIsInvisibleIff(env: Env, p: seq<Message>, m: Message, r: seq<Message>, copy: Message,
                           q: seq<Message>, active: bool)
    requires IsCopyOf(env, copy, m) && StaysWith(r, m.promptId)
    ensures var front, pid := p + [m] + r, m.promptId;
            && StateAt(env, front, |p| + 1).group.Some?
            && var duration := StateAt(env, front, |p| + 1).group.value.durationMs;
            TurnsEq(Turns(env, front + q, active), Turns(env, front + [copy] + q, active)) <==>
              && (!NoticeWaits(r) || NextAssistant(q).None? || Continues(pid, NextAssistant(q).value.promptId))
              && (RowFollows(q, pid) || NonEmpty(LastEnded(r, pid, m.endedAt)) == NonEmpty(copy.endedAt))
              && (TimedRowFollows(q, pid) || copy.durationMs.None? ||
                  LastDuration(r, pid, duration) == copy.durationMs)
  {
    hide StateAt, Turns, TurnsEq, StaysWith, NoticeWaits, NoticesAgree, IsCovered, NonEmpty, Covers, Continues,
         RowFollows, TimedRowFollows, LastEnded, LastDuration;
    CopyIsCovered(env, p, m, r, copy);
    CoveredRowIsInvisibleIff(env, p + [m] + r, copy, q, active);
    NoticesAgreeIff(env, p, m, r, q);
  }

  lemma {:induction false} NotTimed(r: seq<Message>, pid: Option<string>, a: Option<int>, b: Option<int>)
    requires a.Some? ==> b == a
    ensures LastDuration(r, pid, a).Some? ==> LastDuration(r, pid, b) == LastDuration(r, pid, a)
  {
    LastDurationDepends(r, pid, a, b);
    LastDurationDepends(r, pid, b, b);
  }

  /** In particular a copy is invisible, whatever the turn brought since its row, if every
      notice in between has a later assistant row in between, and the copy ends as the last
      row before it and brings no other duration. */
  lemma DuplicateIsInvisible(env: Env, p: seq<Message>, m: Message, r: seq<Message>, copy: Message,
                             q: seq<Message>, active: bool)
    requires IsCopyOf(env, copy, m) && StaysWith(r, m.promptId) && !NoticeWaits(r)
    requires copy.endedAt == LastEnded(r, m.promptId, m.endedAt)
    requires copy.durationMs.None? || copy.durationMs == LastDuration(r, m.promptId, m.durationMs)
    ensures TurnsEq(Turns(env, p + [m] + r + q, active), Turns(env, p + [m] + r + [copy] + q, active))
  {
    hide StateAt, Turns, TurnsEq, NonEmpty, LastEnded, LastDuration, Covers, StaysWith, NoticeWaits;
    CopyIsInvisibleIff(env, p, m, r, copy, q, active);
    var front := p + [m] + r;
    assert front[|p|] == m;
    assert StateAt(env, front, |p| + 1) == Step(env, StateAt(env, front, |p|), m, front[|p| + 1..]) by {
      OneStep(env, front, |p|);
    }
    RowOnRecord(env, StateAt(env, front, |p|), m, front[|p| + 1..]);
    NotTimed(r, m.promptId, m.durationMs, StateAt(env, front, |p| + 1).group.value.durationMs);
  }

  // ---------------------------------------------------------------- the stamps a copy leaves behind

  /** Turn `n` with another duration and end. */
  function WithTurnStamps(turns: seq<Turn>, n: nat, durationMs: Option<int>, endedAt: Option<string>): seq<Turn>
    requires n < |turns| && turns[n].AssistantTurn?
  {
    turns[n := turns[n].(durationMs := durationMs, endedAt := endedAt)]
  }

  /** All that a covered row can do, if no notice in front of it is placed differently: its
      turn has the stamps of the last row behind it, or else those the copy brings. */
  lemma CoveredRowCountsForItsStamps(env: Env, p: seq<Message>, copy: Message, q: seq<Message>, active: bool)
    requires StateAt(env, p, |p|).group.Some? && IsCovered(env, StateAt(env, p, |p|).group.value, copy)
    requires NoticesAgree(env, p, q, |p|)
    ensures var s, t := StateAt(env, p, |p|), Turns(env, p + q, active);
            var g := s.group.value;
            && |s.turns| < |t| && t[|s.turns|].AssistantTurn?
            && TurnsEq(Turns(env, p + [copy] + q, active),
                       WithTurnStamps(t, |s.turns|,
                                      LastDuration(q, g.promptId,
                                                   if copy.durationMs.Some? then copy.durationMs else g.durationMs),
                                      NonEmpty(LastEnded(q, g.promptId, copy.endedAt))))
  {
    hide NoticesAgree, Turns, AssistantStep, StateAt, StateEq, SameStampsBut, NonEmpty, StateInv, TurnsAlike, LastDuration, LastEnded;
    var one, two := p + q, p + [copy] + q;
    var s := StateAt(env, p, |p|);
    var g := s.group.value;
    CoveredStates(env, p, copy, q);
    StatesKeep(env, p, |p|);
    CoveredStep(env, s, copy);
    assert one[|p|..] == q == two[|p| + 1..];
    TurnEnds(env, one, |p|, active);
    TurnEnds(env, two, |p| + 1, active);
    var n := CoveredGoesOn(env, p, copy, q, active);
    Restamp(Turns(env, one, active), Turns(env, two, active), n);
  }

  lemma Restamp(t: seq<Turn>, u: seq<Turn>, n: nat)
    requires TurnsAlike(t, u) && n < |t| && t[n].AssistantTurn? && u[n].AssistantTurn?
    requires forall i :: 0 <= i < |t| && i != n ==> TurnStamps(t[i]) == TurnStamps(u[i])
    ensures TurnsEq(u, WithTurnStamps(t, n, u[n].durationMs, u[n].endedAt))
  {
    hide ToolsEq, BlocksEq;
    var w := WithTurnStamps(t, n, u[n].durationMs, u[n].endedAt);
    forall i | 0 <= i < |u| ensures TurnEq(u[i], w[i]) {
      assert TurnAlike(t[i], u[i]);
      if t[i].AssistantTurn? {
        SameCards(t[i], w[i]);
        CardsEqSymmetric(t[i], u[i]);
      }
    }
  }

  lemma SameCards(t: Turn, u: Turn)
    requires t.AssistantTurn? && u.AssistantTurn? && u == t.(durationMs := u.durationMs, endedAt := u.endedAt)
    ensures ToolsOf(u) == ToolsOf(t) && BlocksOf(u) == BlocksOf(t)
  {}

  lemma CardsEqSymmetric(t: Turn, u: Turn)
    requires ToolsEq(ToolsOf(t), ToolsOf(u)) && BlocksEq(BlocksOf(t), BlocksOf(u))
    ensures ToolsEq(ToolsOf(u), ToolsOf(t)) && BlocksEq(BlocksOf(u), BlocksOf(t))
  {
    var a, b := BlocksOf(t), BlocksOf(u);
    forall i | 0 <= i < |a| ensures BlockEq(b[i], a[i]) { assert BlockEq(a[i], b[i]); }
    forall i | 0 <= i < |ToolsOf(t)| ensures ToolEq(ToolsOf(u)[i], ToolsOf(t)[i]) {
      assert ToolEq(ToolsOf(t)[i], ToolsOf(u)[i]);
    }
  }

  lemma PairState(env: Env, p: seq<Message>, m: Message, copy: Message, q: seq<Message>)
    requires IsCopyOf(env, copy, m)
    ensures var a, b := StateAt(env, p + [WithStampsOf(m, copy)] + q, |p| + 1), StateAt(env, p + [m, copy] + q, |p| + 2);
            StateEq(a, b) && SameStampsBut(a, b, -1)
  {
    hide AssistantStep, StateEq, StateInv, Covers;
    var row := WithStampsOf(m, copy);
    var one, two := p + [row] + q, p + [m, copy] + q;
    assert one == p + ([row] + q) && two == p + ([m, copy] + q);
    PrefixSame(env, p, [row] + q, [m, copy] + q, |p|);
    var s := StateAt(env, one, |p|);
    StatesKeep(env, one, |p|);
    assert one[|p|] == row && two[|p|] == m && two[|p| + 1] == copy;
    assert StateAt(env, one, |p| + 1) == AssistantStep(env, s, row);
    assert StateAt(env, two, |p| + 1) == AssistantStep(env, s, m);
    assert StateAt(env, two, |p| + 2) == AssistantStep(env, StateAt(env, two, |p| + 1), copy);
    StepPair(env, s, m, copy);
    PairStamps(env, s, m, copy);
  }

  lemma PairStamps(env: Env, s: State, m: Message, copy: Message)
    requires IsCopyOf(env, copy, m)
    ensures SameStampsBut(AssistantStep(env, s, WithStampsOf(m, copy)),
                          AssistantStep(env, AssistantStep(env, s, m), copy), -1)
  {
    hide Covers, SigOf, Flush, FoldRow;
    var once, row := AssistantStep(env, s, m), WithStampsOf(m, copy);
    var goesOn := ContinuesGroup(s.group, m.promptId);
    var g, h := if goesOn then s.group.value else NewGroup(m), if goesOn then s.group.value else NewGroup(row);
    FoldRowStamps(env, g, m);
    FoldRowStamps(env, h, row);
    FoldRowStamps(env, FoldRow(env, g, m), copy);
  }

  /** A copy directly behind its row: together they count as the row would with the
      duration and end the copy leaves behind, whatever precedes and follows. */
  lemma DuplicateCountsForItsStamps(env: Env, p: seq<Message>, m: Message, copy: Message, q: seq<Message>, active: bool)
    requires IsCopyOf(env, copy, m)
    ensures TurnsEq(Turns(env, p + [WithStampsOf(m, copy)] + q, active), Turns(env, p + [m, copy] + q, active))
  {
    hide StateAt, Turns, StateEq, SameStampsBut, TurnsAlike, TurnStamps, Covers;
    var one, two := p + [WithStampsOf(m, copy)] + q, p + [m, copy] + q;
    PairState(env, p, m, copy, q);
    assert one[|p| + 1..] == q == two[|p| + 2..];
    TurnsGoOnAlike(env, one, |p| + 1, two, |p| + 2, -1, active);
    AlikeWithStamps(Turns(env, one, active), Turns(env, two, active), -1);
  }

  lemma {:induction false} LastEndedConcat(r: seq<Message>, q: seq<Message>, pid: Option<string>, soFar: Option<string>)
    requires StaysWith(r, pid)
    ensures LastEnded(r + q, pid, soFar) == LastEnded(q, pid, LastEnded(r, pid, soFar))
  {
    hide IsHardBoundary, Continues;
    if r == [] {
      assert r + q == q;
    } else {
      assert (r + q)[1..] == r[1..] + q;
      LastEndedConcat(r[1..], q, pid, if Classify(r[0]) == AssistantRow then r[0].endedAt else soFar);
    }
  }

  /** The end of a row's turn, read off the messages behind the row. */
  lemma RowTurnEnds(env: Env, p: seq<Message>, m: Message, x: seq<Message>, active: bool)
    requires Classify(m) == AssistantRow && m.promptId.Some?
    ensures var all := p + ([m] + x);
            var n, t := Slot(env, all, |p|), Turns(env, all, active);
            n < |t| && t[n].AssistantTurn? && t[n].endedAt == NonEmpty(LastEnded(x, m.promptId, m.endedAt))
  {
    hide StateAt, Turns, NonEmpty, LastEnded, LastDuration, AssistantStep;
    var all := p + ([m] + x);
    OneStep(env, all, |p|);
    assert all[|p|] == m && all[|p| + 1..] == x;
    RowStep(env, StateAt(env, all, |p|), m, x);
    RowStamps(env, StateAt(env, all, |p|), m);
    TurnEnds(env, all, |p| + 1, active);
  }

  /** It lands in the same turn, whatever follows. */
  lemma SameSlot(env: Env, p: seq<Message>, m: Message, x: seq<Message>, y: seq<Message>)
    requires Classify(m) == AssistantRow
    ensures Slot(env, p + ([m] + x), |p|) == Slot(env, p + ([m] + y), |p|)
  {
    hide StateAt, Step, AssistantStep;
    var one, two := p + ([m] + x), p + ([m] + y);
    PrefixSame(env, p, [m] + x, [m] + y, |p|);
    OneStep(env, one, |p|);
    OneStep(env, two, |p|);
    assert one[|p|] == m && two[|p|] == m;
    RowStep(env, StateAt(env, one, |p|), m, one[|p| + 1..]);
    RowStep(env, StateAt(env, one, |p|), m, two[|p| + 1..]);
  }

  lemma EndBehindCopy(r: seq<Message>, copy: Message, q: seq<Message>, pid: Option<string>, soFar: Option<string>)
    requires StaysWith(r, pid) && Classify(copy) == AssistantRow && Continues(pid, copy.promptId)
    ensures LastEnded(r + ([copy] + q), pid, soFar) == LastEnded(q, pid, copy.endedAt)
  {
    hide StaysWith, Continues;
    LastEndedConcat(r, [copy] + q, pid, soFar);
    assert ([copy] + q)[0] == copy && ([copy] + q)[1..] == q;
  }

  /** What a copy does to the end of its turn, wherever in the turn it stands and whatever
      follows: both ends, and that they are the same if and only if a later row follows or
      the copy ends as the last row before it did. */
  lemma EndSurvivesCopyIff(env: Env, p: seq<Message>, m: Message, r: seq<Message>, copy: Message,
                           q: seq<Message>, active: bool)
    requires IsCopyOf(env, copy, m) && StaysWith(r, m.promptId)
    ensures var one, two, pid := p + [m] + r + q, p + [m] + r + [copy] + q, m.promptId;
            var n := Slot(env, one, |p|);
            var t, u := Turns(env, one, active), Turns(env, two, active);
            && n < |t| && n < |u| && t[n].AssistantTurn? && u[n].AssistantTurn?
            && t[n].endedAt == NonEmpty(LastEnded(q, pid, LastEnded(r, pid, m.endedAt)))
            && u[n].endedAt == NonEmpty(LastEnded(q, pid, copy.endedAt))
            && (t[n].endedAt == u[n].endedAt <==>
                  RowFollows(q, pid) || NonEmpty(LastEnded(r, pid, m.endedAt)) == NonEmpty(copy.endedAt))
  {
    hide Turns, Covers, SigOf, NonEmpty, StaysWith, StateAt, LastEnded, RowFollows, Slot, Classify;
    var pid, last := m.promptId, LastEnded(r, m.promptId, m.endedAt);
    assert p + [m] + r + q == p + ([m] + (r + q));
    assert p + [m] + r + [copy] + q == p + ([m] + (r + ([copy] + q)));
    RowTurnEnds(env, p, m, r + q, active);
    RowTurnEnds(env, p, m, r + ([copy] + q), active);
    SameSlot(env, p, m, r + q, r + ([copy] + q));
    LastEndedConcat(r, q, pid, m.endedAt);
    EndBehindCopy(r, copy, q, pid, m.endedAt);
    LastEndedDepends(q, pid, last, copy.endedAt);
    LastEndedDepends(q, pid, copy.endedAt, last);
  }

  // ---------------------------------------------------------------- inputs

  function PlainRow(text: string, promptId: string, endedAt: Option<string>): Message {
    BareMessage(AssistantRole, NoKind, [TextPart(text)]).(promptId := Some(promptId), endedAt := endedAt)
  }

  function PlainNotice(): Message {
    BareMessage(UserRole, BackgroundTaskKind, [])
  }

  lemma PlainCopy(env: Env, text: string, promptId: string, a: Option<string>, b: Option<string>)
    ensures IsCopyOf(env, PlainRow(text, promptId, b), PlainRow(text, promptId, a))
  {
    hide SigOf, Covers;
    var sig := SigOf(env, PlainRow(text, promptId, a).content);
    CoversIsPreorder(sig, sig, sig);
  }

  /** A row, a notice and a copy of the row, then a row of another prompt: the copy is seen,
      because it keeps the notice in the turn. */
  lemma CopyKeepsNoticeInTurn(env: Env, active: bool)
    ensures var row, next := PlainRow("x", "A", None), PlainRow("y", "B", None);
            && IsCopyOf(env, row, row)
            && !TurnsEq(Turns(env, [row, PlainNotice(), next], active),
                        Turns(env, [row, PlainNotice(), row, next], active))
  {
    hide StateAt, Turns, TurnsEq, NonEmpty, LastEnded, LastDuration, Covers;
    var row, notice, next := PlainRow("x", "A", None), PlainNotice(), PlainRow("y", "B", None);
    PlainCopy(env, "x", "A", None, None);
    assert Classify(notice) == NoticeRow;
    assert NextAssistant([notice][1..]).None?;
    assert [notice][0] == notice;
    assert NextAssistant([next]) == Some(next);
    CopyIsInvisibleIff(env, [], row, [notice], row, [next], active);
    assert [] + [row] + [notice] + [next] == [row, notice, next];
    assert [] + [row] + [notice] + [row] + [next] == [row, notice, row, next];
  }

  /** A row, a later row and a copy of the first: the copy ends as its row did, and yet the
      end of the turn changes. */
  lemma CopyMovesEndBack(env: Env, active: bool)
    ensures var row, later := PlainRow("x", "A", Some("1")), PlainRow("y", "A", Some("2"));
            && IsCopyOf(env, row, row)
            && var t, u := Turns(env, [row, later], active), Turns(env, [row, later, row], active);
            && |t| > 0 && |u| > 0 && t[0].AssistantTurn? && u[0].AssistantTurn?
            && t[0].endedAt == Some("2") && u[0].endedAt == Some("1")
  {
    hide Turns, Covers, SigOf, LastEnded, Slot;
    var row, later := PlainRow("x", "A", Some("1")), PlainRow("y", "A", Some("2"));
    PlainCopy(env, "x", "A", Some("1"), Some("1"));
    assert StaysWith([later], row.promptId);
    LaterCopyEnds(env, row, later, active);
  }

  lemma LaterCopyEnds(env: Env, row: Message, later: Message, active: bool)
    requires IsCopyOf(env, row, row) && Classify(later) == AssistantRow && later.promptId == row.promptId
    ensures var t, u := Turns(env, [row, later], active), Turns(env, [row, later, row], active);
            && |t| > 0 && |u| > 0 && t[0].AssistantTurn? && u[0].AssistantTurn?
            && t[0].endedAt == NonEmpty(later.endedAt) && u[0].endedAt == NonEmpty(row.endedAt)
  {
    hide Turns, Covers, SigOf, Slot, NonEmpty;
    EndSurvivesCopyIff(env, [], row, [later], row, [], active);
    assert [] + [row] + [later] + [] == [row] + [later] == [row, later];
    assert [] + [row] + [later] + [row] + [] == [row, later, row];
    assert [later][1..] == [];
    NoneFollow(row.promptId, later.endedAt, None);
    NoneFollow(row.promptId, row.endedAt, None);
    FirstSlot(env, row, [later]);
  }

  lemma FirstSlot(env: Env, m: Message, rest: seq<Message>)
    requires Classify(m) == AssistantRow
    ensures Slot(env, [m] + rest, 0) == 0
  {
    hide FoldRow;
    assert StateAt(env, [m] + rest, 0) == State([], 1, None);
  }

  /** A persisted row followed by a streamed copy, which has no end stamp: the turn loses it. */
  lemma CopyErasesEnd(env: Env, active: bool)
    ensures var row, copy := PlainRow("x", "p", Some("t")), PlainRow("x", "p", None);
            && IsCopyOf(env, copy, row)
            && |Turns(env, [row], active)| == 1 && Turns(env, [row], active)[0].AssistantTurn?
            && Turns(env, [row], active)[0].endedAt == Some("t")
            && |Turns(env, [row, copy], active)| == 1 && Turns(env, [row, copy], active)[0].AssistantTurn?
            && Turns(env, [row, copy], active)[0].endedAt == None
  {
    hide AssistantStep, SigOf, FoldRow;
    var row, copy := PlainRow("x", "p", Some("t")), PlainRow("x", "p", None);
    PlainCopy(env, "x", "p", Some("t"), None);
    OneGroup(env, row, copy, active);
  }

  lemma OneGroup(env: Env, row: Message, copy: Message, active: bool)
    requires IsCopyOf(env, copy, row)
    ensures |Turns(env, [row], active)| == 1 && |Turns(env, [row, copy], active)| == 1
    ensures Turns(env, [row], active)[0].AssistantTurn? && Turns(env, [row, copy], active)[0].AssistantTurn?
    ensures Turns(env, [row], active)[0].endedAt == NonEmpty(row.endedAt)
    ensures Turns(env, [row, copy], active)[0].endedAt == NonEmpty(copy.endedAt)
  {
    hide FoldRow, Covers, SigOf, Flush;
    var s0 := State([], 1, None);
    assert StateAt(env, [row], 0) == s0 == StateAt(env, [row, copy], 0);
    assert StateAt(env, [row], 1) == AssistantStep(env, s0, row) == StateAt(env, [row, copy], 1);
    var s1 := StateAt(env, [row], 1);
    assert StateAt(env, [row, copy], 2) == AssistantStep(env, s1, copy);
    FlushNothing(env, s0);
    RowStamps(env, s0, row);
    RowStamps(env, s1, copy);
    FlushedEnd(env, s1, !active);
    FlushedEnd(env, AssistantStep(env, s1, copy), !active);
  }
}
