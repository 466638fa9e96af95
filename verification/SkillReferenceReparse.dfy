/** Parsing the body again: exactly when it finds nothing, and texts for which it does not. */
module SkillReferenceReparse {
  import opened Wrappers
  import opened SkillReference
  import opened SkillReferenceDocs

  /** A match at the head of `t` that counts as a reference. */
  predicate Refers(t: string) {
    MatchHead(t).Some? && Activates(NameOf(t, MatchHead(t).value), TargetOf(t, MatchHead(t).value))
  }

  // ---------------------------------------------------------------- scanning the body of a document

  /** Scanning `u`, what is left of an untouched link, and then the body of `d` finds
      nothing. Plain text and untouched links never matter. A shown name is judged against
      the whole body behind it; if it completes a match that is no reference, scanning goes
      on behind that match, wherever it ends. */
  predicate Quiet(u: string, d: Doc)
    decreases d, if u == "" then 0 else |u| + 1
  {
    if u != "" then
      var t := u + BodyDoc(d);
      var m := MatchHead(t);
      if m.None? then Quiet(u[1..], d)
      else !Refers(t) && if m.value.Len() <= |u| then Quiet(u[m.value.Len()..], d) else QuietFrom(d, m.value.Len() - |u|)
    else
      match d
      case Plain(_) => true
      case Linked(_, display, target, rest) =>
        if !Activates(display, target) then Quiet("", rest)
        else
          var t := Bracketed(Trim(display)) + BodyDoc(rest);
          var m := MatchHead(t);
          if m.None? then Quiet("", rest)
          else !Refers(t) && QuietFrom(rest, Max(0, m.value.Len() - |Bracketed(Trim(display))|))
  }

  /** The same from offset `k` of the body of `d` on. */
  predicate QuietFrom(d: Doc, k: nat)
    decreases d, 1
  {
    match d
    case Plain(_) => true
    case Linked(before, display, target, rest) =>
      var piece := before + BodyLink(display, target);
      if k <= |before| then Quiet("", d)
      else if k <= |piece| then Quiet(piece[k..], rest)
      else QuietFrom(rest, k - |piece|)
  }

  function Max(a: int, b: int): int {
    if a < b then b else a
  }

  /** One match at the head of a text: a reference, or nothing and on behind it. */
  lemma HeadMatch(t: string, at: nat)
    requires MatchHead(t).Some?
    ensures var l := MatchHead(t).value;
            Refs(t, at) == [] <==> !Refers(t) && Refs(t[l.Len()..], at + l.Len()) == []
  {
    RefsUnfold(t, at);
  }

  lemma QuietUnfold(u: string, d: Doc)
    requires u != ""
    ensures var t := u + BodyDoc(d);
            var m := MatchHead(t);
            Quiet(u, d) ==
              if m.None? then Quiet(u[1..], d)
              else !Refers(t) &&
                   if m.value.Len() <= |u| then Quiet(u[m.value.Len()..], d) else QuietFrom(d, m.value.Len() - |u|)
  {}

  lemma DropIntoSecond(u: string, v: string, n: nat)
    requires n <= |u + v|
    ensures (u + v)[n..] == if n <= |u| then u[n..] + v else v[n - |u|..]
  {}

  lemma {:induction false} QuietIff(u: string, d: Doc, at: nat)
    requires WellFormed(d)
    ensures Refs(u + BodyDoc(d), at) == [] <==> Quiet(u, d)
    decreases d, if u == "" then 0 else |u| + 1
  {
    hide Refs, MatchHead, Refers, BodyDoc, Activates, Quiet, QuietFrom;
    var t := u + BodyDoc(d);
    if u != "" { QuietUnfold(u, d); }
    if u == "" {
      assert t == BodyDoc(d);
      QuietNext(d, at);
    } else if MatchHead(t).None? {
      RefsUnfold(t, at);
      assert t[1..] == u[1..] + BodyDoc(d);
      QuietIff(u[1..], d, at + 1);
    } else {
      var n := MatchHead(t).value.Len();
      HeadMatch(t, at);
      DropIntoSecond(u, BodyDoc(d), n);
      if n <= |u| { QuietIff(u[n..], d, at + n); } else { QuietFromIff(d, n - |u|, at + n); }
    }
  }

  lemma {:induction false} QuietNext(d: Doc, at: nat)
    requires WellFormed(d)
    ensures Refs(BodyDoc(d), at) == [] <==> Quiet("", d)
    decreases d, 0, 0
  {
    hide Refs, MatchHead, Refers, BodyLink, Activates, Trim, Bracketed, TargetShape;
    match d
    case Plain(t) => NoReferences(t, at);
    case Linked(before, display, target, rest) =>
      SkipPlain(before, BodyLink(display, target) + BodyDoc(rest), at);
      var here := at + |before|;
      if !Activates(display, target) {
        var next := UntouchedLink(display, target, BodyDoc(rest), here);
        QuietNext(rest, next);
      } else {
        var name := Trim(display);
        var t := Bracketed(name) + BodyDoc(rest);
        ShownLink(display, target);
        if MatchHead(t).None? {
          UnmatchedShown(name, BodyDoc(rest), here);
          QuietNext(rest, here + |name| + 2);
        } else {
          var n := MatchHead(t).value.Len();
          MatchedShown(name, BodyDoc(rest), here);
          QuietFromIff(rest, n - |Bracketed(name)|, here + n);
        }
      }
  }

  lemma UntouchedLink(display: string, target: string, u: string, at: nat) returns (next: nat)
    requires PlainDisplay(display) && TargetShape(target) && !Activates(display, target)
    ensures Refs(BodyLink(display, target) + u, at) == Refs(u, next)
  {
    next := RescanLink(display, target, u, at);
  }

  lemma ShownLink(display: string, target: string)
    requires PlainDisplay(display) && Activates(display, target)
    ensures BodyLink(display, target) == Bracketed(Trim(display))
    ensures PlainDisplay(Trim(display)) && Trim(display) != ""
  {
    TrimIsInside(display, '[');
    TrimIsInside(display, ']');
    TrimIsInside(display, '\n');
  }

  lemma UnmatchedShown(name: string, after: string, at: nat)
    requires PlainDisplay(name) && name != "" && MatchHead(Bracketed(name) + after).None?
    ensures Refs(Bracketed(name) + after, at) == Refs(after, at + |name| + 2)
  {
    hide Refs, MatchHead;
    var t := Bracketed(name) + after;
    RefsUnfold(t, at);
    assert t[1..] == (name + "]") + after;
    SkipPlain(name + "]", after, at + 1);
  }

  lemma MatchedShown(name: string, after: string, at: nat)
    requires PlainDisplay(name) && name != "" && MatchHead(Bracketed(name) + after).Some?
    ensures var t := Bracketed(name) + after;
            var n := MatchHead(t).value.Len();
            && |Bracketed(name)| <= n <= |t|
            && (Refs(t, at) == [] <==> !Refers(t) && Refs(after[n - |Bracketed(name)|..], at + n) == [])
  {
    hide Refs, MatchHead, Refers, TargetOf;
    var t := Bracketed(name) + after;
    NameMatch(name, after);
    HeadMatch(t, at);
    DropIntoSecond(Bracketed(name), after, MatchHead(t).value.Len());
  }

  lemma {:induction false} QuietFromIff(d: Doc, k: nat, at: nat)
    requires WellFormed(d) && k <= |BodyDoc(d)|
    ensures Refs(BodyDoc(d)[k..], at) == [] <==> QuietFrom(d, k)
    decreases d, 1
  {
    hide Refs, BodyLink, TargetShape, PlainDisplay, Quiet;
    match d
    case Plain(t) => NoReferences(t[k..], at);
    case Linked(before, display, target, rest) =>
      var link := BodyLink(display, target) + BodyDoc(rest);
      var piece := before + BodyLink(display, target);
      assert BodyDoc(d) == piece + BodyDoc(rest);
      DropIntoSecond(before, link, k);
      DropIntoSecond(piece, BodyDoc(rest), k);
      if k <= |before| {
        SkipPlain(before[k..], link, at);
        SkipPlain(before, link, 0);
        OffsetIsIrrelevant(link, at + |before[k..]|, |before|);
        QuietNext(d, 0);
      } else if k <= |piece| {
        QuietIff(piece[k..], rest, at);
      } else {
        QuietFromIff(rest, k - |piece|, at);
      }
  }

  lemma {:induction false} OffsetIsIrrelevant(t: string, at: nat, at': nat)
    ensures Refs(t, at) == [] <==> Refs(t, at') == []
  {
    hide MatchHead, RefOf, NameOf, TargetOf;
    if t != "" {
      if MatchHead(t).None? {
        OffsetIsIrrelevant(t[1..], at + 1, at' + 1);
      } else {
        var n := MatchHead(t).value.Len();
        HeadMatch(t, at);
        HeadMatch(t, at');
        OffsetIsIrrelevant(t[n..], at + n, at' + n);
      }
    }
  }

  /** Exactly when parsing the body of a printed document finds nothing. */
  lemma ReparseFindsNothingIff(d: Doc)
    requires WellFormed(d)
    ensures References(BodyOf(Print(d))) == [] <==> Quiet("", d)
  {
    BodyOfDoc(d, 0);
    QuietNext(d, 0);
  }

  // ---------------------------------------------------------------- when the names alone decide

  /** No shown name makes a reference with the body behind it. */
  predicate NamesAreQuiet(d: Doc) {
    match d
    case Plain(_) => true
    case Linked(_, display, target, rest) =>
      (Activates(display, target) ==> !Refers(Bracketed(Trim(display)) + BodyDoc(rest))) && NamesAreQuiet(rest)
  }

  lemma {:induction false} QuietSkips(u: string, d: Doc)
    requires '[' !in u
    ensures Quiet(u, d) == Quiet("", d)
    decreases |u|
  {
    if u != "" {
      assert (u + BodyDoc(d))[0] == u[0];
      QuietSkips(u[1..], d);
    }
  }

  lemma InsideLink(before: string, display: string, target: string, k: nat)
    requires PlainDisplay(display) && '[' !in target
    requires |before| < k <= |before + BodyLink(display, target)|
    ensures '[' !in (before + BodyLink(display, target))[k..]
  {
    var inner := BodyLink(display, target)[1..];
    FormatPlain(display, target);
    TrimIsInside(display, '[');
    assert '[' !in inner;
    assert (before + BodyLink(display, target))[k..] == inner[k - |before| - 1..];
  }

  lemma {:induction false} QuietNamesSuffice(d: Doc)
    requires WellFormed(d) && PlainTargets(d) && NamesAreQuiet(d)
    ensures Quiet("", d)
    decreases d, 0
  {
    hide Refers, MatchHead, BodyLink, BodyDoc, Trim, TargetShape, PlainDisplay;
    if d.Linked? {
      QuietNamesSuffice(d.rest);
      if Activates(d.display, d.target) {
        var name := Bracketed(Trim(d.display));
        var m := MatchHead(name + BodyDoc(d.rest));
        if m.Some? { QuietFromSuffices(d.rest, Max(0, m.value.Len() - |name|)); }
      }
    }
  }

  lemma {:induction false} QuietFromSuffices(d: Doc, k: nat)
    requires WellFormed(d) && PlainTargets(d) && NamesAreQuiet(d)
    ensures QuietFrom(d, k)
    decreases d, 1
  {
    hide Refers, MatchHead, BodyLink, BodyDoc, Trim, TargetShape, PlainDisplay;
    QuietNamesSuffice(d);
    if d.Linked? {
      var piece := d.before + BodyLink(d.display, d.target);
      if |d.before| < k <= |piece| {
        InsideLink(d.before, d.display, d.target, k);
        QuietNamesSuffice(d.rest);
        QuietSkips(piece[k..], d.rest);
      } else if k > |piece| {
        QuietFromSuffices(d.rest, k - |piece|);
      }
    }
  }

  /** If no target has a `[`, it is enough that no shown name makes a reference with the
      whole body behind it. */
  lemma QuietNamesAreEnough(d: Doc)
    requires WellFormed(d) && PlainTargets(d) && NamesAreQuiet(d)
    ensures References(BodyOf(Print(d))) == []
  {
    QuietNamesSuffice(d);
    ReparseFindsNothingIff(d);
  }

  // ---------------------------------------------------------------- for every text

  /** No `[` is directly followed by a trigger. */
  predicate NoOpening(t: string) {
    forall p :: 0 <= p < |t| - 1 ==> !(t[p] == '[' && IsTrigger(t[p + 1]))
  }

  lemma {:induction false} NoOpeningNoReference(t: string, at: nat)
    requires NoOpening(t)
    ensures Refs(t, at) == []
  {
    if t != "" {
      assert MatchHead(t).None?;
      NoOpeningNoReference(t[1..], at + 1);
    }
  }

  ghost predicate InSpan(refs: seq<Reference>, p: nat) {
    exists n :: 0 <= n < |refs| && refs[n].start <= p < refs[n].end
  }

  /** Every opening of `t`, which starts at offset `at`, lies in the span of a reference. */
  ghost predicate OpeningsInSpans(t: string, at: nat, refs: seq<Reference>) {
    forall p :: 0 <= p < |t| - 1 && t[p] == '[' && IsTrigger(t[p + 1]) ==> InSpan(refs, at + p)
  }

  lemma NoOpeningJoin(a: string, name: string, c: string)
    requires NoOpening(a) && NoOpening(Bracketed(name)) && NoOpening(c)
    ensures NoOpening(a + Bracketed(name) + c)
  {
    var b := Bracketed(name);
    var t := a + b + c;
    forall p | 0 <= p < |t| - 1 ensures !(t[p] == '[' && IsTrigger(t[p + 1])) {
      if p < |a| - 1 {
        assert t[p] == a[p] && t[p + 1] == a[p + 1];
      } else if p == |a| - 1 {
        assert t[p + 1] == b[0] == '[';
      } else if p - |a| < |b| - 1 {
        assert t[p] == b[p - |a|] && t[p + 1] == b[p - |a| + 1];
      } else if p - |a| == |b| - 1 {
        assert t[p] == b[|b| - 1] == ']';
      } else {
        assert t[p] == c[p - |a| - |b|] && t[p + 1] == c[p - |a| - |b| + 1];
      }
    }
  }

  /** In front of the first reference there is no opening. */
  lemma GapHasNoOpening(t: string, at: nat, refs: seq<Reference>)
    requires refs != [] && Spaced(refs, at, at + |t|) && OpeningsInSpans(t, at, refs)
    ensures at <= refs[0].start < refs[0].end <= at + |t| && NoOpening(t[..refs[0].start - at])
  {
    var k := refs[0].start - at;
    SpacedPairwise(refs, at, at + |t|);
    forall p | 0 <= p < k - 1 ensures !(t[..k][p] == '[' && IsTrigger(t[..k][p + 1])) {
      assert t[..k][p] == t[p] && t[..k][p + 1] == t[p + 1];
      forall n | 0 <= n < |refs| ensures refs[n].start > at + p { assert n > 0 ==> refs[0].end <= refs[n].start; }
      assert !InSpan(refs, at + p);
    }
  }

  /** Behind it, the openings lie in the spans of the others. */
  lemma RestHasSpans(t: string, at: nat, refs: seq<Reference>)
    requires refs != [] && Spaced(refs, at, at + |t|) && OpeningsInSpans(t, at, refs)
    ensures refs[0].end <= at + |t| && OpeningsInSpans(t[refs[0].end - at..], refs[0].end, refs[1..])
  {
    var m := refs[0].end - at;
    var u := t[m..];
    forall p | 0 <= p < |u| - 1 && u[p] == '[' && IsTrigger(u[p + 1]) ensures InSpan(refs[1..], refs[0].end + p) {
      assert u[p] == t[m + p] && u[p + 1] == t[m + p + 1];
      assert InSpan(refs, at + (m + p));
      var n :| 0 <= n < |refs| && refs[n].start <= at + (m + p) < refs[n].end;
      assert refs[1..][n - 1] == refs[n];
    }
  }

  ghost predicate NamesHaveNoOpening(refs: seq<Reference>) {
    forall n :: 0 <= n < |refs| ==> NoOpening(Bracketed(refs[n].display))
  }

  lemma {:induction false} BodyHasNoOpening(t: string, at: nat, refs: seq<Reference>)
    requires Spaced(refs, at, at + |t|) && OpeningsInSpans(t, at, refs) && NamesHaveNoOpening(refs)
    ensures NoOpening(Body(t, at, refs))
    decreases |refs|
  {
    if refs != [] {
      hide NoOpening, OpeningsInSpans, Bracketed;
      GapHasNoOpening(t, at, refs);
      RestHasSpans(t, at, refs);
      BodyHasNoOpening(t[refs[0].end - at..], refs[0].end, refs[1..]);
      NoOpeningJoin(t[..refs[0].start - at], refs[0].display, Body(t[refs[0].end - at..], refs[0].end, refs[1..]));
    }
  }

  /** For every text: if each `[` directly followed by a trigger lies inside a reference, and
      no shown name starts with a trigger or has a `[` directly followed by one inside,
      then parsing the body finds nothing. */
  lemma ReparseOfEveryText(s: string)
    requires OpeningsInSpans(s, 0, References(s)) && NamesHaveNoOpening(References(s))
    ensures References(BodyOf(s)) == []
  {
    RefsSpaced(s, 0);
    BodyHasNoOpening(s, 0, Refs(s, 0));
    NoOpeningNoReference(BodyOf(s), 0);
  }
}
