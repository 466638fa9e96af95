/** Printing then parsing: documents made of plain text and printed links. */
module SkillReferenceDocs {
  import opened Wrappers
  import opened SkillReference

  /** Plain text, or plain text, a printed link and more. */
  datatype Doc =
    | Plain(text: string)
    | Linked(before: string, display: string, target: string, rest: Doc)

  function Print(d: Doc): string {
    match d
    case Plain(t) => t
    case Linked(before, display, target, rest) => before + Format(display, target) + Print(rest)
  }

  predicate PlainDisplay(display: string) {
    '[' !in display && NameShape(display)
  }

  /** Plain parts have no `[`, names no bracket or line break, targets the link shape. */
  predicate WellFormed(d: Doc) {
    match d
    case Plain(t) => '[' !in t
    case Linked(before, display, target, rest) =>
      '[' !in before && PlainDisplay(display) && TargetShape(target) && WellFormed(rest)
  }

  /** No target has a `[`. */
  predicate PlainTargets(d: Doc) {
    match d
    case Plain(_) => true
    case Linked(_, _, target, rest) => '[' !in target && PlainTargets(rest)
  }

  /** A link that counts as a reference. */
  predicate Activates(display: string, target: string) {
    Trim(display) != "" && KindOf(target).Some?
  }

  /** The references a document should give, when it starts at offset `at`: one for each
      link that activates, at its own place. */
  function Expected(d: Doc, at: nat): seq<Reference> {
    match d
    case Plain(_) => []
    case Linked(before, display, target, rest) =>
      AsSeq(RefOf(display, target, at + |before|))
      + Expected(rest, at + |before| + |display| + |target| + 5)
  }

  // ---------------------------------------------------------------- scanning a document

  lemma {:induction false} EscapePlain(display: string)
    requires '[' !in display && ']' !in display
    ensures Escape(display) == display
  {
    if display != "" { EscapePlain(display[1..]); }
  }

  lemma FormatPlain(display: string, target: string)
    requires PlainDisplay(display)
    ensures Format(display, target) == LinkText('$', display, target)
  {
    EscapePlain(display);
  }

  /** Text without `[` holds no match. */
  lemma {:induction false} SkipPlain(before: string, after: string, at: nat)
    requires '[' !in before
    ensures Refs(before + after, at) == Refs(after, at + |before|)
  {
    if before == "" {
      assert before + after == after;
    } else {
      assert (before + after)[1..] == before[1..] + after;
      SkipPlain(before[1..], after, at + 1);
    }
  }

  lemma {:induction false} NoReferences(t: string, at: nat)
    requires '[' !in t
    ensures Refs(t, at) == []
  {
    if t != "" { NoReferences(t[1..], at + 1); }
  }

  /** A printed link contributes its reference, or nothing, and scanning goes on behind it. */
  lemma ScanLink(display: string, target: string, after: string, at: nat)
    requires PlainDisplay(display) && TargetShape(target)
    ensures Refs(Format(display, target) + after, at) ==
            AsSeq(RefOf(display, target, at)) + Refs(after, at + |display| + |target| + 5)
  {
    FormatPlain(display, target);
    LinkIsMatched('$', display, target, after);
    RefsUnfold(Format(display, target) + after, at);
  }

  /** The references of a linked document, and where its rest starts. */
  lemma LinkedRefs(before: string, display: string, target: string, u: string, at: nat)
    requires '[' !in before && PlainDisplay(display) && TargetShape(target)
    ensures var t := before + Format(display, target) + u;
            var start := at + |before|;
            var end := start + |display| + |target| + 5;
            && |t| == |before| + |display| + |target| + 5 + |u|
            && Refs(t, at) == AsSeq(RefOf(display, target, start)) + Refs(u, end)
            && t[..|before|] == before && t[end - at..] == u
            && t == (before + Format(display, target)) + u
            && |before + Format(display, target)| == end - at
  {
    hide Refs, AsSeq, RefOf;
    var t := before + Format(display, target) + u;
    assert t == before + (Format(display, target) + u);
    FormatPlain(display, target);
    SkipPlain(before, Format(display, target) + u, at);
    ScanLink(display, target, u, at + |before|);
  }

  /** The round trip, at any offset. */
  lemma {:induction false} ScanDoc(d: Doc, at: nat)
    requires WellFormed(d)
    ensures Refs(Print(d), at) == Expected(d, at)
    decreases d
  {
    hide Refs, Format, RefOf, AsSeq, TargetShape, PlainDisplay;
    match d
    case Plain(t) => NoReferences(t, at);
    case Linked(before, display, target, rest) =>
      LinkedRefs(before, display, target, Print(rest), at);
      ScanDoc(rest, at + |before| + |display| + |target| + 5);
  }

  /** Print, then parse: the references are those links of the document that activate, in
      order, at their own places, with trimmed names and normalised targets. */
  lemma PrintThenParse(d: Doc)
    requires WellFormed(d)
    ensures References(Print(d)) == Expected(d, 0)
  {
    ScanDoc(d, 0);
  }

  // ---------------------------------------------------------------- the body of a document

  function BodyLink(display: string, target: string): string {
    if Activates(display, target) then Bracketed(Trim(display)) else Format(display, target)
  }

  /** The document with each activating link cut down to its bracketed name. */
  function BodyDoc(d: Doc): string {
    match d
    case Plain(t) => t
    case Linked(before, display, target, rest) => before + (BodyLink(display, target) + BodyDoc(rest))
  }

  lemma ConcatSlices(x: string, u: string, a: nat, b: nat)
    requires a <= |u| && b <= |u|
    ensures (x + u)[..|x| + a] == x + u[..a] && (x + u)[|x| + b..] == u[b..]
  {}

  lemma BodyOfNone(t: string, at: nat)
    ensures Spaced([], at, at + |t|) && Body(t, at, []) == t
  {}

  lemma BodyFrom(x: string, u: string, at: nat, refs: seq<Reference>)
    requires Spaced(refs, at + |x|, at + |x| + |u|) && Spaced(refs, at, at + |x + u|)
    ensures Body(x + u, at, refs) == x + Body(u, at + |x|, refs)
  {
    hide Bracketed, Body, Spaced;
    if refs == [] {
      BodyOfNone(x + u, at);
      BodyOfNone(u, at + |x|);
    } else {
      var r := refs[0];
      BodyUnfold(x + u, at, refs);
      BodyUnfold(u, at + |x|, refs);
      var a, b := r.start - (at + |x|), r.end - (at + |x|);
      ConcatSlices(x, u, a, b);
      assert r.start - at == |x| + a && r.end - at == |x| + b;
      Associate(x, u[..a], Bracketed(r.display), Body(u[b..], r.end, refs[1..]));
    }
  }

  lemma Associate(a: string, b: string, c: string, d: string)
    ensures (a + b) + c + d == a + (b + c + d)
  {}

  lemma BodyHead(x: string, link: string, u: string, at: nat, r: Reference, rest: seq<Reference>)
    requires r.start == at + |x| && r.end == at + |x| + |link| && link != ""
    requires Spaced(rest, r.end, r.end + |u|)
    ensures Spaced([r] + rest, at, at + |x + link + u|)
    ensures Body(x + link + u, at, [r] + rest) == x + (Bracketed(r.display) + Body(u, r.end, rest))
  {
    var t := x + link + u;
    assert ([r] + rest)[1..] == rest;
    assert t[..|x|] == x && t[|x| + |link|..] == u;
    assert (x + Bracketed(r.display)) + Body(u, r.end, rest) == x + (Bracketed(r.display) + Body(u, r.end, rest));
  }

  lemma BodyOfLink(before: string, display: string, target: string, u: string, at: nat,
                   refs: seq<Reference>, rest: seq<Reference>)
    requires PlainDisplay(display) && refs == AsSeq(RefOf(display, target, at + |before|)) + rest
    requires var end := at + |before| + |display| + |target| + 5; Spaced(rest, end, end + |u|)
    ensures var t := before + Format(display, target) + u;
            var end := at + |before| + |display| + |target| + 5;
            && Spaced(refs, at, at + |t|)
            && Body(t, at, refs) == before + (BodyLink(display, target) + Body(u, end, rest))
  {
    hide PlainDisplay, Format, Bracketed, Body, Spaced, KindOf, Normalize, Trim;
    FormatPlain(display, target);
    var end := at + |before| + |display| + |target| + 5;
    var link := Format(display, target);
    if Activates(display, target) {
      BodyHead(before, link, u, at, RefOf(display, target, at + |before|).value, rest);
    } else {
      assert refs == rest;
      SpacedMono(rest, at, end, end + |u|);
      BodyFrom(before + link, u, at, rest);
      assert (before + link) + Body(u, end, rest) == before + (link + Body(u, end, rest));
    }
  }

  lemma BodyOfLinked(before: string, display: string, target: string, u: string, at: nat)
    requires '[' !in before && PlainDisplay(display) && TargetShape(target)
    ensures var t := before + Format(display, target) + u;
            var end := at + |before| + |display| + |target| + 5;
            && Spaced(Refs(t, at), at, at + |t|) && Spaced(Refs(u, end), end, end + |u|)
            && Body(t, at, Refs(t, at)) == before + (BodyLink(display, target) + Body(u, end, Refs(u, end)))
  {
    var end := at + |before| + |display| + |target| + 5;
    LinkedRefs(before, display, target, u, at);
    RefsSpaced(u, end);
    BodyOfLink(before, display, target, u, at, Refs(before + Format(display, target) + u, at), Refs(u, end));
  }

  lemma {:induction false} BodyOfDoc(d: Doc, at: nat)
    requires WellFormed(d)
    ensures Spaced(Refs(Print(d), at), at, at + |Print(d)|)
    ensures Body(Print(d), at, Refs(Print(d), at)) == BodyDoc(d)
    decreases d
  {
    RefsSpaced(Print(d), at);
    match d
    case Plain(t) => NoReferences(t, at);
    case Linked(before, display, target, rest) =>
      BodyOfLinked(before, display, target, Print(rest), at);
      BodyOfDoc(rest, at + |before| + |display| + |target| + 5);
  }

  // ---------------------------------------------------------------- parsing the body again

  /** No shown name starts with a trigger. */
  predicate NoTriggerNames(d: Doc) {
    match d
    case Plain(_) => true
    case Linked(_, display, target, rest) =>
      (Activates(display, target) ==> !IsTrigger(Trim(display)[0])) && NoTriggerNames(rest)
  }

  lemma {:induction false} TrimStartInside(s: string, c: char)
    requires c !in s
    ensures c !in TrimStart(s)
  {
    if s != "" && IsSpace(s[0]) { TrimStartInside(s[1..], c); }
  }

  lemma TrimIsInside(s: string, c: char)
    requires c !in s
    ensures c !in Trim(s)
  {
    TrimStartInside(s, c);
  }

  /** A bracketed name that starts with no trigger is passed over. */
  lemma SkipName(name: string, after: string, at: nat)
    requires '[' !in name && name != "" && !IsTrigger(name[0])
    ensures Refs(Bracketed(name) + after, at) == Refs(after, at + |name| + 2)
  {
    var t := Bracketed(name) + after;
    assert t[1] == name[0];
    RefsUnfold(t, at);
    assert t[1..] == (name + "]") + after;
    SkipPlain(name + "]", after, at + 1);
  }

  lemma {:induction false} RescanDoc(d: Doc, at: nat)
    requires WellFormed(d) && NoTriggerNames(d)
    ensures Refs(BodyDoc(d), at) == []
    decreases d
  {
    match d
    case Plain(t) => NoReferences(t, at);
    case Linked(before, display, target, rest) =>
      SkipPlain(before, BodyLink(display, target) + BodyDoc(rest), at);
      var next := RescanLink(display, target, BodyDoc(rest), at + |before|);
      RescanDoc(rest, next);
  }

  lemma RescanLink(display: string, target: string, u: string, at: nat) returns (next: nat)
    requires PlainDisplay(display) && TargetShape(target)
    requires Activates(display, target) ==> !IsTrigger(Trim(display)[0])
    ensures Refs(BodyLink(display, target) + u, at) == Refs(u, next)
  {
    if Activates(display, target) {
      TrimIsInside(display, '[');
      SkipName(Trim(display), u, at);
      next := at + |Trim(display)| + 2;
    } else {
      ScanLink(display, target, u, at);
      next := at + |display| + |target| + 5;
      assert RefOf(display, target, at).None?;
      assert [] + Refs(u, next) == Refs(u, next);
    }
  }

  /** Parsing the body again finds nothing, as long as no shown name starts with a trigger. */
  lemma ReparseFindsNothing(d: Doc)
    requires WellFormed(d) && NoTriggerNames(d)
    ensures References(BodyOf(Print(d))) == []
  {
    BodyOfDoc(d, 0);
    RescanDoc(d, 0);
  }

  /** The text after a name makes a link of it: `(`, a target of some kind, `)`. */
  predicate Reactivates(name: string, after: string) {
    && name != "" && IsTrigger(name[0]) && Trim(name[1..]) != ""
    && after != "" && after[0] == '('
    && var k := TargetLen(after[1..]);
       k > 0 && k + 1 < |after| && after[k + 1] == ')' && KindOf(after[1..k + 1]).Some?
  }

  /** A bracketed name is matched, if at all, with the plain text after it as its target. */
  lemma NameMatch(name: string, after: string)
    requires PlainDisplay(name) && name != ""
    requires MatchHead(Bracketed(name) + after).Some?
    ensures var t := Bracketed(name) + after;
            var l := MatchHead(t).value;
            && IsTrigger(name[0]) && after != "" && after[0] == '('
            && l.target == TargetLen(after[1..]) > 0 && l.target + 1 < |after| && after[l.target + 1] == ')'
            && NameOf(t, l) == name[1..] && TargetOf(t, l) == after[1..l.target + 1]
            && t[l.Len()..] == after[l.target + 2..]
  {
    var t := Bracketed(name) + after;
    var l := MatchHead(t).value;
    assert t[1] == name[0];
    assert t[2..] == name[1..] + ("]" + after);
    NameStops(name[1..], "]" + after);
    assert l.name == |name| - 1;
    assert t[l.name + 3..] == after;
    assert t[l.name + 4..] == after[1..];
  }

  lemma ReactivatesMatches(name: string, after: string, u: string)
    requires NameShape(name) && Reactivates(name, after)
    ensures MatchHead(Bracketed(name) + (after + u)).Some?
  {
    hide MatchHead, KindOf, NameShape;
    var k := TargetLen(after[1..]);
    var target := after[1..k + 1];
    TargetLenStops(after[1..]);
    assert Bracketed(name) + (after + u) == LinkText(name[0], name[1..], target) + (after[k + 2..] + u);
    NameTail(name);
    LinkIsMatched(name[0], name[1..], target, after[k + 2..] + u);
  }

  lemma NameTail(name: string)
    requires NameShape(name) && name != ""
    ensures NameShape(name[1..])
  {}

  lemma {:induction false} TargetEndsInside(a: string, u: string)
    requires TargetLen(a) < |a|
    ensures TargetLen(a + u) == TargetLen(a)
  {
    if a[0] != ')' && !IsSpace(a[0]) {
      assert (a + u)[1..] == a[1..] + u;
      TargetEndsInside(a[1..], u);
    }
  }

  /** A plain part that opens with `(` has a `)` or white space of its own. */
  predicate Closed(after: string) {
    after != "" && after[0] == '(' ==> TargetLen(after[1..]) < |after| - 1
  }

  /** A bracketed name, the plain text after it, and what follows: the name and the text
      make a reference exactly under `Reactivates`, and scanning goes on behind the text. */
  lemma NameThenText(name: string, after: string, u: string, at: nat) returns (found: seq<Reference>)
    requires PlainDisplay(name) && name != "" && '[' !in after
    requires u == "" || (u[0] == '[' && Closed(after))
    ensures Refs(Bracketed(name) + (after + u), at) == found + Refs(u, at + |name| + 2 + |after|)
    ensures found == [] <==> !Reactivates(name, after)
  {
    hide *;
    if MatchHead(Bracketed(name) + (after + u)).None? {
      found := [];
      UnmatchedName(name, after, u, at);
    } else {
      found := MatchedName(name, after, u, at);
    }
  }

  lemma UnmatchedName(name: string, after: string, u: string, at: nat)
    requires PlainDisplay(name) && name != "" && '[' !in after
    requires MatchHead(Bracketed(name) + (after + u)).None?
    ensures Refs(Bracketed(name) + (after + u), at) == [] + Refs(u, at + |name| + 2 + |after|)
    ensures !Reactivates(name, after)
  {
    hide Refs, MatchHead, Reactivates;
    var t := Bracketed(name) + (after + u);
    RefsUnfold(t, at);
    assert t[1..] == (name + "]" + after) + u;
    SkipPlain(name + "]" + after, u, at + 1);
    if Reactivates(name, after) { ReactivatesMatches(name, after, u); }
  }

  lemma MatchedName(name: string, after: string, u: string, at: nat) returns (found: seq<Reference>)
    requires PlainDisplay(name) && name != "" && '[' !in after
    requires u == "" || (u[0] == '[' && Closed(after))
    requires MatchHead(Bracketed(name) + (after + u)).Some?
    ensures Refs(Bracketed(name) + (after + u), at) == found + Refs(u, at + |name| + 2 + |after|)
    ensures found == [] <==> !Reactivates(name, after)
  {
    hide Refs, MatchHead, KindOf, Normalize, Closed, NameOf, TargetOf;
    var t := Bracketed(name) + (after + u);
    var l := MatchHead(t).value;
    RefsUnfold(t, at);
    NameMatch(name, after + u);
    MatchStaysInText(after, u);
    var k := l.target;
    CutInside(after, u, k);
    found := AsSeq(RefOf(name[1..], after[1..k + 1], at));
    SkipPlain(after[k + 2..], u, at + l.Len());
  }

  lemma CutInside(after: string, u: string, k: nat)
    requires k + 1 < |after|
    ensures (after + u)[1..k + 1] == after[1..k + 1]
    ensures (after + u)[k + 2..] == after[k + 2..] + u
  {}

  lemma MatchStaysInText(after: string, u: string)
    requires after + u != "" && (after + u)[0] == '(' && (u == "" || (u[0] == '[' && Closed(after)))
    ensures after != "" && after[0] == '('
    ensures TargetLen((after + u)[1..]) == TargetLen(after[1..])
    ensures var k := TargetLen(after[1..]);
            k + 1 < |after + u| && (after + u)[k + 1] == ')' ==> k + 1 < |after| && after[k + 1] == ')'
  {
    assert (after + u)[1..] == after[1..] + u;
    if u == "" {
      assert after + u == after;
    } else {
      TargetEndsInside(after[1..], u);
    }
  }

  function First(d: Doc): string {
    match d
    case Plain(t) => t
    case Linked(before, _, _, _) => before
  }

  /** The body behind the first plain part. */
  function BodyAfterFirst(d: Doc): string {
    match d
    case Plain(_) => ""
    case Linked(_, display, target, rest) => BodyLink(display, target) + BodyDoc(rest)
  }

  /** Between two links, the plain part after a shown name is closed. */
  predicate TextsClosed(d: Doc) {
    match d
    case Plain(_) => true
    case Linked(_, display, target, rest) =>
      (Activates(display, target) && rest.Linked? ==> Closed(First(rest))) && TextsClosed(rest)
  }

  /** No shown name makes a link with the plain text right after it. */
  predicate NothingReactivates(d: Doc) {
    match d
    case Plain(_) => true
    case Linked(_, display, target, rest) =>
      (Activates(display, target) ==> !Reactivates(Trim(display), First(rest))) && NothingReactivates(rest)
  }

  lemma BodySplit(d: Doc)
    requires WellFormed(d)
    ensures BodyDoc(d) == First(d) + BodyAfterFirst(d) && '[' !in First(d)
    ensures d.Linked? ==> BodyAfterFirst(d) != "" && BodyAfterFirst(d)[0] == '['
  {
    if d.Linked? { FormatPlain(d.display, d.target); }
  }

  lemma RescanName(display: string, rest: Doc, at: nat) returns (next: nat, found: seq<Reference>)
    requires PlainDisplay(display) && Trim(display) != "" && WellFormed(rest)
    requires rest.Linked? ==> Closed(First(rest))
    ensures Refs(Bracketed(Trim(display)) + BodyDoc(rest), at) == found + Refs(BodyDoc(rest), next)
    ensures found == [] <==> !Reactivates(Trim(display), First(rest))
  {
    hide Refs, Trim, Closed, Reactivates;
    TrimIsInside(display, '[');
    TrimIsInside(display, ']');
    TrimIsInside(display, '\n');
    BodySplit(rest);
    var name := Trim(display);
    found := NameThenText(name, First(rest), BodyAfterFirst(rest), at);
    next := at + |name| + 2;
    SkipPlain(First(rest), BodyAfterFirst(rest), next);
  }

  lemma {:induction false} RescanExactly(d: Doc, at: nat)
    requires WellFormed(d) && TextsClosed(d)
    ensures Refs(BodyDoc(d), at) == [] <==> NothingReactivates(d)
    decreases d
  {
    hide Refs, Trim, KindOf, Closed, Reactivates, Format, PlainDisplay, TargetShape;
    match d
    case Plain(t) => NoReferences(t, at);
    case Linked(before, display, target, rest) =>
      SkipPlain(before, BodyLink(display, target) + BodyDoc(rest), at);
      if Activates(display, target) {
        var next, found := RescanName(display, rest, at + |before|);
        RescanExactly(rest, next);
      } else {
        var next := RescanLink(display, target, BodyDoc(rest), at + |before|);
        RescanExactly(rest, next);
      }
  }

  /** For documents whose plain parts between links are closed, parsing the body again finds
      nothing exactly when each shown name can be judged quiet by the plain text right
      after it: it starts with no trigger, or that text completes no link. */
  lemma ReparseOfClosedTexts(d: Doc)
    requires WellFormed(d) && TextsClosed(d)
    ensures References(BodyOf(Print(d))) == [] <==> NothingReactivates(d)
  {
    BodyOfDoc(d, 0);
    RescanExactly(d, 0);
  }

  lemma TrimNothing(s: string)
    requires s != "" && !IsSpace(s[0]) && !IsSpace(s[|s| - 1])
    ensures Trim(s) == s
  {}

  lemma CounterexampleLink(display: string, target: string)
    requires display == "$x" && target == "command:a"
    ensures PlainDisplay(display) && TargetShape(target) && BodyLink(display, target) == "[$x]"
  {
    TrimNothing(display);
    assert COMMAND_PREFIX <= target;
  }

  lemma CounterexampleReparse(display: string, target: string)
    requires display == "x" && target == "command:b"
    ensures |References(Format(display, target))| == 1
  {
    TrimNothing(display);
    assert COMMAND_PREFIX <= target;
    ScanLink(display, target, "", 0);
    assert Format(display, target) + "" == Format(display, target);
  }

  /** One activating link and the plain text behind it. */
  lemma BodyOfLinkAndText(display: string, target: string, after: string)
    requires PlainDisplay(display) && TargetShape(target) && '[' !in after
    ensures BodyOf(LinkText('$', display, target) + after) == BodyLink(display, target) + after
  {
    var d := Linked("", display, target, Plain(after));
    FormatPlain(display, target);
    assert Print(d) == LinkText('$', display, target) + after;
    BodyOfDoc(d, 0);
  }

  /** So the body is not always free of references: `[$$x](command:a)(command:b)` has the
      body `[$x](command:b)`, which is a link again. */
  lemma ReparseCanFindALink(text: string, body: string)
    requires text == "[$$x](command:a)(command:b)" && body == "[$x](command:b)"
    ensures BodyOf(text) == body
    ensures |References(body)| == 1
  {
    CounterexampleTexts(text, body, "$x", "command:a", "(command:b)", "x", "command:b");
  }

  lemma CounterexampleTexts(text: string, body: string, display: string, target: string, after: string,
                            display': string, target': string)
    requires text == "[$$x](command:a)(command:b)" && body == "[$x](command:b)"
    requires display == "$x" && target == "command:a" && after == "(command:b)"
    requires display' == "x" && target' == "command:b"
    ensures BodyOf(text) == body && |References(body)| == 1
  {
    hide LinkText, PlainDisplay, TargetShape, BodyLink, Format, Refs, BodyOf;
    CounterexampleSplit(text, display, target, after);
    CounterexampleJoin(body, after, display', target');
    CounterexampleLink(display, target);
    CounterexampleReparse(display', target');
    LinkBecomesLink(text, body, display, target, after, display', target');
  }

  lemma CounterexampleSplit(text: string, display: string, target: string, after: string)
    requires text == "[$$x](command:a)(command:b)"
    requires display == "$x" && target == "command:a" && after == "(command:b)"
    ensures text == LinkText('$', display, target) + after
  {}

  lemma CounterexampleJoin(body: string, after: string, display: string, target: string)
    requires body == "[$x](command:b)" && after == "(command:b)" && display == "x" && target == "command:b"
    ensures body == "[$x]" + after && body == LinkText('$', display, target)
    ensures '[' !in after && PlainDisplay(display)
  {}

  /** A link whose body, together with the text behind it, is a printed link again. */
  lemma LinkBecomesLink(text: string, body: string, display: string, target: string, after: string,
                        display': string, target': string)
    requires PlainDisplay(display) && TargetShape(target) && '[' !in after && PlainDisplay(display')
    requires text == LinkText('$', display, target) + after
    requires body == BodyLink(display, target) + after && body == LinkText('$', display', target')
    ensures BodyOf(text) == body && References(body) == References(Format(display', target'))
  {
    BodyOfLinkAndText(display, target, after);
    FormatPlain(display', target');
  }

  // ---------------------------------------------------------------- one link, both ways

  /** The conditions under which printing loses nothing. */
  predicate Printable(display: string, target: string) {
    && PlainDisplay(display) && display != "" && Trim(display) == display
    && TargetShape(target) && KindOf(target).Some? && Normalize(target) == target
  }

  /** Parsing gives back one link over the whole text with this name and target. */
  ghost predicate ParsesBack(display: string, target: string) {
    var refs := References(Format(display, target));
    && |refs| == 1 && refs[0].display == display && refs[0].target == target
    && refs[0].start == 0 && refs[0].end == |Format(display, target)|
  }

  function InkCount(s: string): nat {
    if s == "" then 0 else InkCount(s[..|s| - 1]) + (if IsSpace(s[|s| - 1]) then 0 else 1)
  }

  lemma {:induction false} InkConcat(a: string, b: string)
    ensures InkCount(a + b) == InkCount(a) + InkCount(b)
  {
    if b == "" {
      assert a + b == a;
    } else {
      assert (a + b)[..|a + b| - 1] == a + b[..|b| - 1];
      InkConcat(a, b[..|b| - 1]);
    }
  }

  lemma {:induction false} InkTrimStart(s: string)
    ensures InkCount(TrimStart(s)) == InkCount(s)
  {
    if s != "" && IsSpace(s[0]) {
      InkTrimStart(s[1..]);
      assert s == s[..1] + s[1..] && s[..1][..0] == "";
      assert InkCount(s[..1]) == 0;
      InkConcat(s[..1], s[1..]);
    }
  }

  lemma {:induction false} InkTrimEnd(s: string)
    ensures InkCount(TrimEnd(s)) == InkCount(s)
  {
    if s != "" && IsSpace(s[|s| - 1]) { InkTrimEnd(s[..|s| - 1]); }
  }

  /** Escaping adds one visible character per bracket. */
  lemma {:induction false} InkEscape(s: string)
    ensures InkCount(Escape(s)) >= InkCount(s)
    ensures '[' in s || ']' in s ==> InkCount(Escape(s)) > InkCount(s)
  {
    if s != "" {
      InkEscape(s[1..]);
      assert s == s[..1] + s[1..];
      InkConcat(s[..1], s[1..]);
      var head := if s[0] == '[' || s[0] == ']' then ['\\', s[0]] else [s[0]];
      InkConcat(head, Escape(s[1..]));
      assert s[..1] == [s[0]] && [s[0]][..0] == "";
      if s[0] == '[' || s[0] == ']' {
        assert head == ['\\'] + [s[0]];
        InkConcat(['\\'], [s[0]]);
        assert ['\\'][..0] == "";
      }
    }
  }

  /** What a whole-text match tells about a printed pair: the name has no `]`, and it is
      as visible as the display, while escaping a bracket would have added a character. */
  lemma WholeMatch(display: string, target: string, name: string, found: string)
    requires Format(display, target) == LinkText('$', name, found)
    requires NameShape(name) && TargetShape(found) && Trim(name) == display && Normalize(found) == target
    ensures PlainDisplay(display) && name == display && found == target
  {
    hide InkCount, KindOf, IsSpace;
    var esc := Escape(display);
    assert Format(display, target) == "[$" + esc + "](" + target + ")";
    assert LinkText('$', name, found) == "[$" + name + "](" + found + ")";
    assert |esc| + |target| == |name| + |found| && |found| >= |target|;
    assert name == Format(display, target)[2..2 + |name|] == esc[..|name|];
    InkTrimStart(name);
    InkTrimEnd(TrimStart(name));
    TrimIsInside(name, ']');
    TrimIsInside(name, '\n');
    if '[' in display {
      EscapeNoClose(display);
      NameFills(esc, target, name, found);
      InkEscape(display);
    } else {
      EscapePlain(display);
      NameFills(esc, target, name, found);
    }
  }

  /** A name without `]` that starts a text like the escaped display does, is all of it. */
  lemma NameFills(esc: string, target: string, name: string, found: string)
    requires "[$" + esc + "](" + target + ")" == "[$" + name + "](" + found + ")"
    requires NameShape(name) && NameShape(esc)
    ensures esc == name && target == found
  {
    var s := "[$" + esc + "](" + target + ")";
    assert s[2..] == esc + ("](" + target + ")");
    NameStops(esc, "](" + target + ")");
    assert s[2..] == name + ("](" + found + ")");
    NameStops(name, "](" + found + ")");
    assert esc == s[2..2 + |esc|] && name == s[2..2 + |esc|];
    assert target == s[4 + |esc|..|s| - 1] && found == s[4 + |esc|..|s| - 1];
  }

  lemma {:induction false} EscapeNoClose(display: string)
    requires NameShape(display)
    ensures NameShape(Escape(display))
  {
    if display != "" { EscapeNoClose(display[1..]); }
  }

  lemma ParsesBackOnlyIfPrintable(display: string, target: string)
    requires ParsesBack(display, target)
    ensures Printable(display, target)
  {
    hide MatchHead, Refs, Escape, IsSpace, NameShape, TargetShape;
    var s := Format(display, target);
    assert s[0..] == s;
    var p := RefComesFromMatch(s, 0, 0);
    MatchIsLink(s);
    var l := MatchHead(s).value;
    assert s[l.Len()..] == "";
    WholeMatch(display, target, NameOf(s, l), TargetOf(s, l));
  }

  /** Printing and parsing are inverse on exactly the printable pairs. */
  lemma SingleLinkRoundTrip(display: string, target: string)
    ensures ParsesBack(display, target) <==> Printable(display, target)
  {
    if Printable(display, target) {
      FormatPlain(display, target);
      ScanLink(display, target, "", 0);
      assert Format(display, target) + "" == Format(display, target);
    } else if ParsesBack(display, target) {
      ParsesBackOnlyIfPrintable(display, target);
    }
  }
}
