/** `collapseInlineWhitespace`: white space between two adjacent references becomes one
    space, and the text is trimmed. */
module SkillReferenceWhitespace {
  import opened Wrappers
  import opened SkillReference
  import opened SkillReferenceDocs

  // ---------------------------------------------------------------- the gap pattern

  function LeadSpaces(t: string): (n: nat)
    ensures n <= |t|
  {
    if t != "" && IsSpace(t[0]) then 1 + LeadSpaces(t[1..]) else 0
  }

  predicate OpensLink(t: string) {
    |t| >= 2 && t[0] == '[' && IsTrigger(t[1])
  }

  /** Two or more spaces, then a link opening. */
  predicate SpaceGap(t: string) {
    LeadSpaces(t) >= 2 && OpensLink(t[LeadSpaces(t)..])
  }

  /** The rest of a target, `)`, and a gap of spaces. */
  predicate TargetGap(t: string) {
    t != "" && if t[0] == ')' then SpaceGap(t[1..]) else !IsSpace(t[0]) && TargetGap(t[1..])
  }

  /** The gap pattern at the head of `t`: `](`, a target, `)`, and a gap of spaces. */
  predicate Gap(t: string) {
    |t| >= 3 && t[0] == ']' && t[1] == '(' && t[2] != ')' && TargetGap(t[2..])
  }

  function CloseLen(t: string): (n: nat)
    requires TargetGap(t)
    ensures 0 < n < |t| && t[n - 1] == ')' && SpaceGap(t[n..])
    ensures forall i :: 0 <= i < n - 1 ==> t[i] != ')' && !IsSpace(t[i])
  {
    if t[0] == ')' then 1 else 1 + CloseLen(t[1..])
  }

  /** `text.replace(gap, '$1 ')`: each gap, leftmost first, keeps its link and one space. */
  function Squeeze(t: string): string {
    if t == "" then ""
    else if Gap(t) then
      var n := 2 + CloseLen(t[2..]);
      t[..n] + " " + Squeeze(t[n..][LeadSpaces(t[n..])..])
    else [t[0]] + Squeeze(t[1..])
  }

  /** `collapseInlineWhitespace`. */
  function Collapse(text: string): string {
    Trim(Squeeze(text))
  }

  // ---------------------------------------------------------------- idempotence

  predicate NoGaps(t: string) {
    t == "" || (!Gap(t) && NoGaps(t[1..]))
  }

  lemma {:induction false} LeadIsSpace(t: string, i: nat)
    requires i < LeadSpaces(t)
    ensures IsSpace(t[i])
  {
    if i > 0 { LeadIsSpace(t[1..], i - 1); }
  }

  /** A character that is not `]` passes. */
  lemma SqueezeHead(t: string)
    requires t != "" && t[0] != ']'
    ensures Squeeze(t) == [t[0]] + Squeeze(t[1..])
    ensures Squeeze(t)[1..] == Squeeze(t[1..])
  {}

  lemma SqueezeFirst(t: string)
    ensures t == "" <==> Squeeze(t) == ""
    ensures t != "" ==> Squeeze(t)[0] == t[0]
  {}

  lemma {:induction false} SqueezeSpaces(t: string)
    ensures SpaceGap(Squeeze(t)) ==> SpaceGap(t)
    ensures LeadSpaces(Squeeze(t)) == LeadSpaces(t)
    ensures Squeeze(t)[LeadSpaces(t)..] == Squeeze(t[LeadSpaces(t)..])
  {
    SqueezeFirst(t);
    if t != "" && IsSpace(t[0]) {
      SqueezeHead(t);
      SqueezeSpaces(t[1..]);
      assert Squeeze(t)[LeadSpaces(t)..] == Squeeze(t[1..])[LeadSpaces(t[1..])..];
      assert t[LeadSpaces(t)..] == t[1..][LeadSpaces(t[1..])..];
    }
    var u := t[LeadSpaces(t)..];
    SqueezeFirst(u);
    if OpensLink(Squeeze(u)) {
      SqueezeHead(u);
      SqueezeFirst(u[1..]);
    }
  }

  lemma GapIsTargetGap(t: string)
    requires Gap(t)
    ensures TargetGap(t[1..])
  {
    assert t[1..][1..] == t[2..];
  }

  /** Squeezing opens no gap that was not there. */
  lemma {:induction false} SqueezeTarget(t: string)
    ensures TargetGap(Squeeze(t)) ==> TargetGap(t)
  {
    SqueezeFirst(t);
    if t != "" && !Gap(t) && !IsSpace(t[0]) {
      assert Squeeze(t)[1..] == Squeeze(t[1..]);
      if t[0] == ')' { SqueezeSpaces(t[1..]); } else { SqueezeTarget(t[1..]); }
    } else if t != "" && Gap(t) {
      GapIsTargetGap(t);
    }
  }

  /** A closed link, one space and a link opening: no gap starts in the link. */
  lemma {:induction false} ClosedPrefix(v: string, y: string)
    requires v != "" && v[|v| - 1] == ')' && forall i :: 0 <= i < |v| - 1 ==> v[i] != ')'
    requires y != "" && y[0] == '[' && NoGaps(y)
    ensures !TargetGap(v + " " + y) && NoGaps(v + " " + y)
  {
    var t := v + " " + y;
    assert t[1..] == v[1..] + " " + y;
    if |v| == 1 {
      assert t[1..] == " " + y;
      assert (" " + y)[1..] == y;
      assert LeadSpaces(y) == 0 && LeadSpaces(" " + y) == 1;
    } else {
      ClosedPrefix(v[1..], y);
      if Gap(t) { GapIsTargetGap(t); }
    }
  }

  /** A gap as text: the link with its closing `)`, the spaces, and the rest. */
  lemma GapParts(t: string) returns (v: string, u: string, rest: string)
    requires Gap(t)
    ensures v == t[..2 + CloseLen(t[2..])]
    ensures t == v + u && v != "" && SpaceGap(u) && rest == u[LeadSpaces(u)..]
    ensures Squeeze(t) == v + (" " + Squeeze(rest))
    ensures v[|v| - 1] == ')' && forall i :: 0 <= i < |v| - 1 ==> v[i] != ')'
    ensures rest != "" && rest[0] == '[' && |rest| < |t|
  {
    hide SpaceGap, TargetGap, LeadSpaces, IsSpace, Squeeze;
    var k := CloseLen(t[2..]);
    v, u := t[..2 + k], t[2 + k..];
    assert t[2..][k..] == u;
    rest := u[LeadSpaces(u)..];
    LinkOfGap(t, v, k);
    RestOfGap(u);
    SqueezeUnfold(t);
    AssociateThree(v, " ", Squeeze(rest));
  }

  lemma LinkOfGap(t: string, v: string, k: nat)
    requires Gap(t) && k == CloseLen(t[2..]) && v == t[..2 + k]
    ensures v[|v| - 1] == ')' && forall i :: 0 <= i < |v| - 1 ==> v[i] != ')'
  {
    hide SpaceGap, TargetGap, CloseLen;
    forall i | 0 <= i < |v| - 1 ensures v[i] != ')' {
      if i >= 2 { assert v[i] == t[2..][i - 2]; }
    }
    assert v[|v| - 1] == t[2..][k - 1];
  }

  lemma SqueezeUnfold(t: string)
    requires Gap(t)
    ensures var n := 2 + CloseLen(t[2..]);
            Squeeze(t) == t[..n] + " " + Squeeze(t[n..][LeadSpaces(t[n..])..])
  {}

  lemma AssociateThree(a: string, b: string, c: string)
    ensures (a + b) + c == a + (b + c)
  {}

  lemma RestOfGap(u: string)
    requires SpaceGap(u)
    ensures var rest := u[LeadSpaces(u)..]; rest != "" && rest[0] == '[' && |rest| < |u|
  {}

  lemma {:induction false} SqueezeLeavesNoGaps(t: string)
    ensures NoGaps(Squeeze(t))
    decreases |t|
  {
    hide Gap;
    if t == "" {
    } else if Gap(t) {
      var v, u, rest := GapParts(t);
      SqueezeLeavesNoGaps(rest);
      SqueezeFirst(rest);
      ClosedPrefix(v, Squeeze(rest));
      assert v + " " + Squeeze(rest) == v + (" " + Squeeze(rest));
    } else {
      var r := Squeeze(t);
      assert r[1..] == Squeeze(t[1..]);
      SqueezeLeavesNoGaps(t[1..]);
      if Gap(r) { GapWasThere(t); }
    }
  }

  lemma GapWasThere(t: string)
    requires t != "" && Squeeze(t) == [t[0]] + Squeeze(t[1..]) && Gap(Squeeze(t))
    ensures Gap(t)
  {
    var r := Squeeze(t);
    var u := t[1..];
    assert r[1..] == Squeeze(u);
    SqueezeFirst(u);
    assert u[0] == '(';
    SqueezeHead(u);
    assert r[2..] == Squeeze(u)[1..] == Squeeze(u[1..]);
    assert u[1..] == t[2..];
    SqueezeFirst(t[2..]);
    SqueezeTarget(t[2..]);
  }

  lemma {:induction false} NoGapsSqueeze(t: string)
    requires NoGaps(t)
    ensures Squeeze(t) == t
  {
    if t != "" { NoGapsSqueeze(t[1..]); }
  }

  lemma {:induction false} NoGapsTrimStart(t: string)
    requires NoGaps(t)
    ensures NoGaps(TrimStart(t))
  {
    if t != "" && IsSpace(t[0]) { NoGapsTrimStart(t[1..]); }
  }

  lemma {:induction false} SpaceGapLonger(a: string, b: string)
    requires SpaceGap(a)
    ensures SpaceGap(a + b)
  {
    LeadLonger(a, b);
    assert (a + b)[LeadSpaces(a)..] == a[LeadSpaces(a)..] + b;
  }

  lemma {:induction false} LeadLonger(a: string, b: string)
    requires LeadSpaces(a) < |a|
    ensures LeadSpaces(a + b) == LeadSpaces(a)
  {
    if IsSpace(a[0]) {
      assert (a + b)[1..] == a[1..] + b;
      LeadLonger(a[1..], b);
    }
  }

  lemma {:induction false} TargetGapLonger(a: string, b: string)
    requires TargetGap(a)
    ensures TargetGap(a + b)
  {
    assert (a + b)[1..] == a[1..] + b;
    if a[0] == ')' { SpaceGapLonger(a[1..], b); } else { TargetGapLonger(a[1..], b); }
  }

  lemma {:induction false} NoGapsPrefix(a: string, b: string)
    requires NoGaps(a + b)
    ensures NoGaps(a)
  {
    if a != "" {
      assert (a + b)[1..] == a[1..] + b;
      NoGapsPrefix(a[1..], b);
      if Gap(a) {
        assert (a + b)[2..] == a[2..] + b;
        TargetGapLonger(a[2..], b);
      }
    }
  }

  /** Collapsing twice is collapsing once, on every text. */
  lemma CollapseIsIdempotent(text: string)
    ensures Collapse(Collapse(text)) == Collapse(text)
  {
    hide Squeeze, NoGaps, TrimStart, TrimEnd;
    var r := Squeeze(text);
    SqueezeLeavesNoGaps(text);
    NoGapsTrimStart(r);
    var a := TrimStart(r);
    var c := TrimEnd(a);
    assert a == c + a[|c|..];
    NoGapsPrefix(c, a[|c|..]);
    NoGapsSqueeze(c);
    TrimTrimmed(a);
  }

  lemma TrimTrimmed(a: string)
    requires a == "" || !IsSpace(a[0])
    ensures Trim(TrimEnd(a)) == TrimEnd(a)
  {}

  // ---------------------------------------------------------------- documents keep their references

  /** `u` is `t` with some space gaps before a link opening cut to one space. */
  ghost predicate Shrinks(t: string, u: string)
    decreases |t|
  {
    if t == "" then u == ""
    else
      || (u != "" && t[0] == u[0] && Shrinks(t[1..], u[1..]))
      || (SpaceGap(t) && u != "" && u[0] == ' ' && Shrinks(t[LeadSpaces(t)..], u[1..]))
  }

  lemma {:induction false} ShrinksPrefix(v: string, t: string, u: string)
    requires Shrinks(t, u)
    ensures Shrinks(v + t, v + u)
  {
    if v == "" {
      assert v + t == t && v + u == u;
    } else {
      assert (v + t)[1..] == v[1..] + t && (v + u)[1..] == v[1..] + u;
      ShrinksPrefix(v[1..], t, u);
    }
  }

  lemma ShrinkGap(u: string, w: string)
    requires SpaceGap(u) && Shrinks(u[LeadSpaces(u)..], w)
    ensures Shrinks(u, " " + w)
  {
    assert (" " + w)[1..] == w;
  }

  /** Squeezing only shrinks such gaps. */
  lemma {:induction false} SqueezeShrinks(t: string)
    ensures Shrinks(t, Squeeze(t))
    decreases |t|
  {
    if t == "" {
    } else if Gap(t) {
      var v, u, rest := GapParts(t);
      SqueezeShrinks(rest);
      ShrinkGap(u, Squeeze(rest));
      ShrinksPrefix(v, u, " " + Squeeze(rest));
    } else {
      SqueezeShrinks(t[1..]);
      assert Squeeze(t)[1..] == Squeeze(t[1..]);
    }
  }

  /** A plain part as it was, or with two or more spaces at its end cut to one. */
  ghost predicate PlainShrinks(p: string, q: string) {
    || p == q
    || (q != "" && |q| < |p| && q[|q| - 1] == ' ' && q[..|q| - 1] == p[..|q| - 1]
        && forall i :: |q| - 1 <= i < |p| ==> IsSpace(p[i]))
  }

  /** The same links, in order, with plain parts that at most shrank. */
  ghost predicate DocShrinks(d: Doc, e: Doc) {
    match (d, e)
    case (Plain(s), Plain(t)) => s == t
    case (Linked(p, display, target, rest), Linked(q, display', target', rest')) =>
      display == display' && target == target' && PlainShrinks(p, q) && DocShrinks(rest, rest')
    case _ => false
  }

  /** The document with its first plain part replaced. */
  function WithFirst(d: Doc, first: string): Doc {
    match d
    case Plain(_) => Plain(first)
    case Linked(_, display, target, rest) => Linked(first, display, target, rest)
  }

  function AfterFirst(d: Doc): string {
    match d
    case Plain(_) => ""
    case Linked(_, display, target, rest) => Format(display, target) + Print(rest)
  }

  lemma PrintSplit(d: Doc)
    ensures Print(d) == First(d) + AfterFirst(d)
    ensures forall s :: Print(WithFirst(d, s)) == s + AfterFirst(d)
  {
    forall s ensures Print(WithFirst(d, s)) == s + AfterFirst(d) {
      if d.Linked? {
        assert s + Format(d.display, d.target) + Print(d.rest) == s + (Format(d.display, d.target) + Print(d.rest));
      }
    }
    assert WithFirst(d, First(d)) == d;
  }

  lemma {:induction false} NoGapWithoutLink(t: string)
    requires '[' !in t
    ensures !SpaceGap(t)
  {}

  lemma {:induction false} PlainKeeps(t: string, u: string)
    requires '[' !in t && Shrinks(t, u)
    ensures u == t
  {
    if t != "" { PlainKeeps(t[1..], u[1..]); }
  }

  /** A gap at the head of a document is all of its first plain part. */
  lemma GapIsFirst(d: Doc)
    requires WellFormed(d) && SpaceGap(Print(d))
    ensures d.Linked? && LeadSpaces(Print(d)) == |d.before| >= 2
    ensures forall i :: 0 <= i < |d.before| ==> IsSpace(d.before[i])
  {
    var t := Print(d);
    var n := LeadSpaces(t);
    if d.Plain? { NoGapWithoutLink(t); }
    PrintSplit(d);
    assert t[n] == '[' && t[n..][0] == '[';
    forall i | 0 <= i < n ensures IsSpace(t[i]) { LeadIsSpace(t, i); }
    FormatPlain(d.display, d.target);
    assert t[|d.before|] == '[' && !IsSpace('[');
    forall i | 0 <= i < |d.before| ensures t[i] != '[' { assert t[i] == d.before[i]; }
    assert n == |d.before|;
    forall i | 0 <= i < n ensures IsSpace(d.before[i]) { assert t[i] == d.before[i]; }
  }

  /** A shrunken document text is the text of a shrunken document. */
  lemma {:induction false} ShrunkDoc(d: Doc, u: string) returns (e: Doc)
    requires WellFormed(d) && PlainTargets(d) && Shrinks(Print(d), u)
    ensures DocShrinks(d, e) && Print(e) == u && WellFormed(e)
    decreases |Print(d)|, 1
  {
    hide WellFormed, PlainTargets, DocShrinks, SpaceGap, Print, AfterFirst, IsSpace;
    var t := Print(d);
    PrintSplit(d);
    if d.Plain? {
      e := ShrunkPlain(d, u);
    } else if d.before == "" {
      e := ShrunkLink(d, u);
    } else if t[0] == u[0] && Shrinks(t[1..], u[1..]) {
      DropChar(d);
      var e1 := ShrunkDoc(WithFirst(d, d.before[1..]), u[1..]);
      e := PutBack(d, e1);
      assert u == [u[0]] + u[1..];
    } else {
      GapIsFirst(d);
      DropGap(d);
      var e1 := ShrunkDoc(WithFirst(d, ""), u[1..]);
      e := PutSpace(d, e1);
      assert u == " " + u[1..];
    }
  }

  lemma ShrunkPlain(d: Doc, u: string) returns (e: Doc)
    requires WellFormed(d) && d.Plain? && Shrinks(Print(d), u)
    ensures DocShrinks(d, e) && Print(e) == u && WellFormed(e)
  {
    PlainKeeps(d.text, u);
    e := d;
  }

  lemma DropChar(d: Doc)
    requires WellFormed(d) && PlainTargets(d) && d.Linked? && d.before != ""
    ensures var s := WithFirst(d, d.before[1..]);
            && WellFormed(s) && PlainTargets(s) && Print(d) != ""
            && Print(d)[0] == d.before[0] && Print(d)[1..] == Print(s)
  {
    hide Print, AfterFirst, PlainDisplay, TargetShape;
    PrintSplit(d);
    assert (d.before + AfterFirst(d))[1..] == d.before[1..] + AfterFirst(d);
  }

  lemma DropGap(d: Doc)
    requires WellFormed(d) && PlainTargets(d) && d.Linked?
    ensures var s := WithFirst(d, "");
            && WellFormed(s) && PlainTargets(s)
            && |d.before| <= |Print(d)| && Print(d)[|d.before|..] == Print(s)
            && |Print(s)| + |d.before| == |Print(d)|
  {
    PrintSplit(d);
    assert (d.before + AfterFirst(d))[|d.before|..] == "" + AfterFirst(d);
  }

  lemma PrintCons(c: char, e: Doc)
    ensures Print(WithFirst(e, [c] + First(e))) == [c] + Print(e)
  {
    PrintSplit(e);
    assert ([c] + First(e)) + AfterFirst(e) == [c] + (First(e) + AfterFirst(e));
  }

  /** A character taken off the first plain part, put back. */
  lemma PutBack(d: Doc, e1: Doc) returns (e: Doc)
    requires WellFormed(d) && d.Linked? && d.before != "" && WellFormed(e1)
    requires DocShrinks(WithFirst(d, d.before[1..]), e1)
    ensures DocShrinks(d, e) && WellFormed(e) && Print(e) == [d.before[0]] + Print(e1)
  {
    e := Linked([d.before[0]] + e1.before, e1.display, e1.target, e1.rest);
    PrintCons(d.before[0], e1);
    PlainShrinksCons(d.before, e1.before);
  }

  /** A first plain part of two or more spaces, replaced by one. */
  lemma PutSpace(d: Doc, e1: Doc) returns (e: Doc)
    requires d.Linked? && |d.before| >= 2 && WellFormed(e1)
    requires forall i :: 0 <= i < |d.before| ==> IsSpace(d.before[i])
    requires DocShrinks(WithFirst(d, ""), e1)
    ensures DocShrinks(d, e) && WellFormed(e) && Print(e) == " " + Print(e1)
  {
    assert e1.before == "";
    e := WithFirst(e1, " ");
    PrintSplit(e1);
    assert " " + AfterFirst(e1) == " " + ("" + AfterFirst(e1));
  }

  lemma PlainShrinksCons(p: string, q: string)
    requires p != "" && PlainShrinks(p[1..], q)
    ensures PlainShrinks(p, [p[0]] + q)
  {
    var q' := [p[0]] + q;
    if p[1..] == q {
      assert p == q';
    } else {
      assert q'[..|q'| - 1] == [p[0]] + q[..|q| - 1];
      assert p[..|q'| - 1] == [p[0]] + p[1..][..|q| - 1];
      forall i | |q'| - 1 <= i < |p| ensures IsSpace(p[i]) { assert p[i] == p[1..][i - 1]; }
    }
  }

  /** The text of a printed link after its `[`. */
  function LinkRest(display: string, target: string): string {
    "$" + display + "](" + target + ")"
  }

  lemma LinkSplit(display: string, target: string)
    requires PlainDisplay(display) && '[' !in target
    ensures Format(display, target) == "[" + LinkRest(display, target) && '[' !in LinkRest(display, target)
    ensures var link := LinkRest(display, target); link != "" && !IsSpace(link[|link| - 1])
  {
    FormatPlain(display, target);
  }

  /** At a link, the rest of the link text counts as plain text in front of what follows. */
  lemma {:induction false} ShrunkLink(d: Doc, u: string) returns (e: Doc)
    requires WellFormed(d) && PlainTargets(d) && Shrinks(Print(d), u) && d.Linked? && d.before == ""
    ensures DocShrinks(d, e) && Print(e) == u && WellFormed(e)
    decreases |Print(d)|, 0
  {
    var t := Print(d);
    var link, rest := LinkRest(d.display, d.target), d.rest;
    LinkSplit(d.display, d.target);
    PrintSplit(rest);
    var longer := WithFirst(rest, link + First(rest));
    assert t == "[" + Print(longer);
    assert t[1..] == Print(longer) && LeadSpaces(t) == 0;
    var e1 := ShrunkDoc(longer, u[1..]);
    e := PutLink(d, e1);
    assert u == "[" + u[1..];
  }

  lemma PutLink(d: Doc, e1: Doc) returns (e: Doc)
    requires WellFormed(d) && PlainTargets(d) && d.Linked? && d.before == "" && WellFormed(e1)
    requires DocShrinks(WithFirst(d.rest, LinkRest(d.display, d.target) + First(d.rest)), e1)
    ensures DocShrinks(d, e) && WellFormed(e) && Print(e) == "[" + Print(e1)
  {
    hide PlainDisplay, TargetShape, LinkRest, AfterFirst, NameShape, Print;
    var link := LinkRest(d.display, d.target);
    LinkSplit(d.display, d.target);
    var q := KeepsLink(link, First(d.rest), First(e1), d.rest.Plain?);
    e := Linked("", d.display, d.target, WithFirst(e1, q));
    PrintLink(d.display, d.target, e1, q);
  }

  lemma PrintLink(display: string, target: string, e1: Doc, q: string)
    requires Format(display, target) == "[" + LinkRest(display, target) && First(e1) == LinkRest(display, target) + q
    ensures Print(Linked("", display, target, WithFirst(e1, q))) == "[" + Print(e1)
  {
    hide Format, LinkRest, WithFirst, First, AfterFirst;
    PrintSplit(e1);
    var link, after := LinkRest(display, target), AfterFirst(e1);
    assert Print(Linked("", display, target, WithFirst(e1, q))) == "" + ("[" + link) + (q + after);
    assert "" + ("[" + link) + (q + after) == "[" + ((link + q) + after);
  }

  /** A link text in front of a plain part stays as it is when the part shrinks. */
  lemma KeepsLink(link: string, p: string, r: string, same: bool) returns (q: string)
    requires link != "" && !IsSpace(link[|link| - 1])
    requires if same then link + p == r else PlainShrinks(link + p, r)
    requires '[' !in r
    ensures r == link + q && '[' !in q && (if same then p == q else PlainShrinks(p, q))
  {
    if link + p == r {
      q := p;
      assert forall c :: c in q ==> c in r;
    } else {
      var w := link + p;
      assert w[|link| - 1] == link[|link| - 1];
      assert |r| - 1 >= |link|;
      q := r[|link|..];
      assert r[..|link|] == r[..|r| - 1][..|link|] == w[..|r| - 1][..|link|] == link;
      assert q[..|q| - 1] == r[..|r| - 1][|link|..] == w[..|r| - 1][|link|..] == p[..|q| - 1];
      forall i | |q| - 1 <= i < |p| ensures IsSpace(p[i]) { assert p[i] == w[|link| + i]; }
      assert r == link + q;
    }
  }

  // ---------------------------------------------------------------- trimming a document

  lemma {:induction false} TrimEndConcat(a: string, b: string)
    requires a != "" && !IsSpace(a[|a| - 1])
    ensures TrimEnd(a + b) == a + TrimEnd(b)
  {
    if b == "" {
      assert a + b == a;
    } else if IsSpace(b[|b| - 1]) {
      assert (a + b)[..|a + b| - 1] == a + b[..|b| - 1];
      TrimEndConcat(a, b[..|b| - 1]);
    }
  }

  lemma {:induction false} TrimStartConcat(a: string, b: string)
    requires b != "" && !IsSpace(b[0])
    ensures TrimStart(a + b) == TrimStart(a) + b
  {
    if a == "" {
      assert a + b == b;
    } else if IsSpace(a[0]) {
      assert (a + b)[1..] == a[1..] + b;
      TrimStartConcat(a[1..], b);
    }
  }

  /** The document of the text without trailing white space. */
  function DocTrimEnd(d: Doc): Doc {
    match d
    case Plain(t) => Plain(TrimEnd(t))
    case Linked(before, display, target, rest) => Linked(before, display, target, DocTrimEnd(rest))
  }

  lemma {:induction false} PrintTrimEnd(d: Doc)
    requires WellFormed(d)
    ensures Print(DocTrimEnd(d)) == TrimEnd(Print(d)) && WellFormed(DocTrimEnd(d))
    decreases d
  {
    match d
    case Plain(t) =>
    case Linked(before, display, target, rest) =>
      PrintTrimEnd(rest);
      FormatPlain(display, target);
      TrimEndConcat(before + Format(display, target), Print(rest));
  }

  lemma PrintTrimStart(d: Doc)
    requires WellFormed(d)
    ensures Print(WithFirst(d, TrimStart(First(d)))) == TrimStart(Print(d))
    ensures WellFormed(WithFirst(d, TrimStart(First(d))))
  {
    PrintSplit(d);
    TrimStartInside(First(d), '[');
    if d.Linked? {
      FormatPlain(d.display, d.target);
      assert AfterFirst(d)[0] == '[';
      TrimStartConcat(d.before, AfterFirst(d));
    } else {
      assert First(d) + AfterFirst(d) == First(d);
      assert TrimStart(First(d)) + AfterFirst(d) == TrimStart(First(d));
    }
  }

  // ---------------------------------------------------------------- the theorem

  /** What a reference says, without where it stands. */
  function Keys(refs: seq<Reference>): seq<(Kind, string, string)> {
    if refs == [] then []
    else [(refs[0].kind, refs[0].display, refs[0].target)] + Keys(refs[1..])
  }

  function DocKeys(d: Doc): seq<(Kind, string, string)> {
    match d
    case Plain(_) => []
    case Linked(_, display, target, rest) =>
      (if Activates(display, target) then [(KindOf(target).value, Trim(display), Normalize(target))] else [])
      + DocKeys(rest)
  }

  lemma {:induction false} KeysOfExpected(d: Doc, at: nat)
    ensures Keys(Expected(d, at)) == DocKeys(d)
    decreases d
  {
    if d.Linked? {
      var end := at + |d.before| + |d.display| + |d.target| + 5;
      KeysOfExpected(d.rest, end);
      KeysOfOne(RefOf(d.display, d.target, at + |d.before|), Expected(d.rest, end));
    }
  }

  lemma KeysOfOne(r: Option<Reference>, refs: seq<Reference>)
    ensures Keys(AsSeq(r) + refs) ==
            (if r.Some? then [(r.value.kind, r.value.display, r.value.target)] else []) + Keys(refs)
  {
    if r.Some? {
      assert ([r.value] + refs)[1..] == refs;
    } else {
      assert [] + refs == refs;
    }
  }

  lemma {:induction false} ShrinkKeepsKeys(d: Doc, e: Doc)
    requires DocShrinks(d, e)
    ensures DocKeys(d) == DocKeys(e)
    decreases d
  {
    if d.Linked? { ShrinkKeepsKeys(d.rest, e.rest); }
  }

  lemma {:induction false} TrimEndKeepsKeys(d: Doc)
    ensures DocKeys(DocTrimEnd(d)) == DocKeys(d)
    decreases d
  {
    if d.Linked? { TrimEndKeepsKeys(d.rest); }
  }

  /** On documents whose targets have no `[`, collapsing keeps every reference: parsing
      gives the same kinds, names and targets in the same order. */
  lemma CollapseKeepsReferences(d: Doc)
    requires WellFormed(d) && PlainTargets(d)
    ensures Keys(References(Collapse(Print(d)))) == Keys(References(Print(d)))
  {
    SqueezeShrinks(Print(d));
    var e := ShrunkDoc(d, Squeeze(Print(d)));
    ShrinkKeepsKeys(d, e);
    PrintTrimStart(e);
    var f := WithFirst(e, TrimStart(First(e)));
    assert DocKeys(f) == DocKeys(e);
    PrintTrimEnd(f);
    TrimEndKeepsKeys(f);
    PrintThenParse(d);
    PrintThenParse(DocTrimEnd(f));
    KeysOfExpected(d, 0);
    KeysOfExpected(DocTrimEnd(f), 0);
  }

  // ---------------------------------------------------------------- which white space changes

  /** `](`, a target, `)`: the end of some link, whatever stands before it. */
  predicate LinkTail(v: string) {
    |v| >= 4 && v[0] == ']' && v[1] == '(' && v[|v| - 1] == ')' &&
    forall i :: 2 <= i < |v| - 1 ==> v[i] != ')' && !IsSpace(v[i])
  }

  /** At `i`, directly behind the end of a link, two or more spaces start that run up to a
      link opening. */
  ghost predicate GapAt(s: string, i: nat)
    requires i <= |s|
  {
    SpaceGap(s[i..]) && exists p :: 0 <= p < i && LinkTail(s[p..i])
  }

  /** Every such run, judged where it stands, becomes one space; nothing else changes. */
  ghost function Shrink(s: string, i: nat): string
    requires i <= |s|
    decreases |s| - i
  {
    if i == |s| then ""
    else if GapAt(s, i) then " " + Shrink(s, i + LeadSpaces(s[i..]))
    else [s[i]] + Shrink(s, i + 1)
  }

  lemma {:induction false} ClosedTarget(t: string, k: nat)
    requires k < |t| && t[k] == ')' && SpaceGap(t[k + 1..])
    requires forall i :: 0 <= i < k ==> t[i] != ')' && !IsSpace(t[i])
    ensures TargetGap(t)
  {
    if k > 0 {
      assert t[1..][k - 1 + 1..] == t[k + 1..];
      ClosedTarget(t[1..], k - 1);
    }
  }

  /** The pattern at `p` is the end of a link and a gap behind it. */
  lemma TailIsGap(s: string, p: nat, i: nat)
    requires p <= i <= |s| && LinkTail(s[p..i]) && SpaceGap(s[i..])
    ensures Gap(s[p..])
  {
    hide SpaceGap, IsSpace, TargetGap;
    var v, t, k := s[p..i], s[p..][2..], i - p - 3;
    assert t[k + 1..] == s[i..];
    assert t[k] == v[|v| - 1];
    forall j | 0 <= j < k ensures t[j] != ')' && !IsSpace(t[j]) { assert t[j] == v[j + 2]; }
    ClosedTarget(t, k);
    assert s[p..][2] == v[2];
  }

  lemma GapIsTail(s: string, p: nat)
    requires p <= |s| && Gap(s[p..])
    ensures var i := p + 2 + CloseLen(s[p..][2..]);
            i < |s| && LinkTail(s[p..i]) && SpaceGap(s[i..]) && s[i..] == s[p..][i - p..]
  {
    hide SpaceGap, TargetGap, IsSpace;
    var t := s[p..][2..];
    var k := CloseLen(t);
    var i := p + 2 + k;
    var v := s[p..i];
    assert s[i..] == t[k..];
    assert k >= 2 && v[|v| - 1] == t[k - 1];
    forall j | 2 <= j < |v| - 1 ensures v[j] != ')' && !IsSpace(v[j]) { assert v[j] == t[j - 2]; }
  }

  /** The scan is at `a`: no gap behind a link that starts before `a` is still to come. */
  ghost predicate AllDone(s: string, a: nat)
    requires a <= |s|
  {
    forall p, i :: 0 <= p < a <= i <= |s| ==> !(LinkTail(s[p..i]) && SpaceGap(s[i..]))
  }

  /** A character at which no gap pattern starts passes. */
  lemma PassOne(s: string, a: nat)
    requires a < |s| && AllDone(s, a) && !Gap(s[a..])
    ensures AllDone(s, a + 1) && !GapAt(s, a)
  {
    hide LinkTail, SpaceGap, Gap;
    forall p, i | 0 <= p < a + 1 <= i <= |s| ensures !(LinkTail(s[p..i]) && SpaceGap(s[i..])) {
      if p == a && LinkTail(s[p..i]) && SpaceGap(s[i..]) { TailIsGap(s, p, i); }
    }
  }

  lemma NoSpaceNoGap(s: string, i: nat)
    requires i < |s| && !IsSpace(s[i])
    ensures !GapAt(s, i)
  {}

  lemma TailHasNoSpaces(v: string)
    requires LinkTail(v)
    ensures forall i :: 0 <= i < |v| ==> !IsSpace(v[i])
  {}

  lemma ShrinkPass(s: string, i: nat)
    requires i < |s| && !GapAt(s, i)
    ensures Shrink(s, i) == [s[i]] + Shrink(s, i + 1)
  {
    hide GapAt;
  }

  lemma ShrinkGapAt(s: string, i: nat)
    requires i < |s| && GapAt(s, i)
    ensures i + LeadSpaces(s[i..]) <= |s| && Shrink(s, i) == " " + Shrink(s, i + LeadSpaces(s[i..]))
  {}

  lemma ShrinkEnd(s: string)
    ensures Shrink(s, |s|) == ""
  {}

  /** Up to the end of a link text without spaces, nothing changes. */
  lemma {:induction false} ShrinkWord(s: string, a: nat, n: nat)
    requires a <= n <= |s| && forall i :: a <= i < n ==> !IsSpace(s[i])
    ensures Shrink(s, a) == s[a..n] + Shrink(s, n)
    decreases n - a
  {
    hide GapAt, IsSpace, Shrink;
    if a < n {
      NoSpaceNoGap(s, a);
      ShrinkPass(s, a);
      ShrinkWord(s, a + 1, n);
      assert s[a..n] == [s[a]] + s[a + 1..n];
    } else {
      assert s[a..n] == "";
    }
  }

  /** Between a link and the end of the spaces behind it, no link starts that closes later. */
  lemma LinkIsClosed(s: string, a: nat, n: nat, p: nat, i: nat)
    requires a <= p && a + 4 <= n < i <= |s| && LinkTail(s[a..n])
    requires p < n + LeadSpaces(s[n..]) <= i
    ensures !LinkTail(s[p..i])
  {
    hide LeadSpaces;
    var v, w := s[a..n], s[p..i];
    assert v[|v| - 1] == s[n - 1] == ')';
    assert w[0] == s[p];
    if p >= n {
      LeadIsSpace(s[n..], p - n);
      assert s[n..][p - n] == s[p];
    } else {
      assert w[n - 1 - p] == s[n - 1];
    }
  }

  /** Behind a gap, no link that started before is still to close. */
  lemma PassGap(s: string, a: nat, n: nat)
    requires a <= n <= |s| && AllDone(s, a) && LinkTail(s[a..n]) && SpaceGap(s[n..])
    ensures var m := n + LeadSpaces(s[n..]);
            n < m <= |s| && AllDone(s, m) && GapAt(s, n) && a + 4 <= n
  {
    hide SpaceGap, LinkTail, LeadSpaces;
    assert |s[a..n]| >= 4 by { TailIsLong(s[a..n]); }
    GapMoves(s, n);
    var m := n + LeadSpaces(s[n..]);
    forall p, i | 0 <= p < m <= i <= |s| ensures !(LinkTail(s[p..i]) && SpaceGap(s[i..])) {
      if p >= a { LinkIsClosed(s, a, n, p, i); }
    }
  }

  lemma TailIsLong(v: string)
    requires LinkTail(v)
    ensures |v| >= 4
  {}

  lemma GapMoves(s: string, n: nat)
    requires n <= |s| && SpaceGap(s[n..])
    ensures LeadSpaces(s[n..]) >= 2 && n < |s|
  {}

  lemma ShrinkOverGap(s: string, a: nat, n: nat)
    requires a <= n <= |s| && LinkTail(s[a..n]) && SpaceGap(s[n..]) && GapAt(s, n)
    ensures n + LeadSpaces(s[n..]) <= |s|
    ensures Shrink(s, a) == s[a..n] + (" " + Shrink(s, n + LeadSpaces(s[n..])))
  {
    hide GapAt, SpaceGap, LinkTail, LeadSpaces, IsSpace, Shrink;
    GapMoves(s, n);
    TailHasNoSpaces(s[a..n]);
    forall i | a <= i < n ensures !IsSpace(s[i]) { assert s[i] == s[a..n][i - a]; }
    ShrinkWord(s, a, n);
    ShrinkGapAt(s, n);
  }

  lemma SqueezeOverGap(s: string, a: nat, n: nat)
    requires a <= n <= |s| && Gap(s[a..]) && n == a + 2 + CloseLen(s[a..][2..])
    ensures n + LeadSpaces(s[n..]) <= |s|
    ensures Squeeze(s[a..]) == s[a..n] + (" " + Squeeze(s[n + LeadSpaces(s[n..])..]))
  {
    hide Gap, TargetGap, SpaceGap, LeadSpaces, CloseLen, Squeeze;
    var v, u, rest := GapParts(s[a..]);
    assert v == s[a..n];
    assert u == s[a..][|v|..] == s[n..];
    assert rest == s[n + LeadSpaces(s[n..])..];
  }

  /** Both make one space of a gap and go on behind it. */
  lemma GapStep(s: string, a: nat) returns (n: nat, m: nat)
    requires a <= |s| && AllDone(s, a) && Gap(s[a..])
    ensures a < n < m <= |s| && AllDone(s, m)
    ensures Squeeze(s[a..]) == s[a..n] + (" " + Squeeze(s[m..]))
    ensures Shrink(s, a) == s[a..n] + (" " + Shrink(s, m))
  {
    hide AllDone, GapAt, Gap, SpaceGap, LinkTail, LeadSpaces, TargetGap, CloseLen, Squeeze, Shrink;
    GapIsTail(s, a);
    GapHasTarget(s[a..]);
    n := a + 2 + CloseLen(s[a..][2..]);
    PassGap(s, a, n);
    m := n + LeadSpaces(s[n..]);
    SqueezeOverGap(s, a, n);
    ShrinkOverGap(s, a, n);
  }

  lemma GapHasTarget(t: string)
    requires Gap(t)
    ensures TargetGap(t[2..])
  {}

  /** The scan finds every gap and no other. */
  lemma {:induction false} SqueezeIsShrink(s: string, a: nat)
    requires a <= |s| && AllDone(s, a)
    ensures Squeeze(s[a..]) == Shrink(s, a)
    decreases |s| - a
  {
    hide AllDone, GapAt, Gap, Shrink;
    if a == |s| {
      ShrinkEnd(s);
    } else {
      if Gap(s[a..]) {
        var n, m := GapStep(s, a);
        SqueezeIsShrink(s, m);
      } else {
        PassOne(s, a);
        ShrinkPass(s, a);
        SqueezeIsShrink(s, a + 1);
        assert s[a..][1..] == s[a + 1..];
      }
    }
  }

  /** Exactly which white space changes: what is trimmed at the ends, and every run of two
      or more spaces directly behind the end of any link and in front of a link opening. */
  lemma OnlyGapsShrink(text: string)
    ensures Squeeze(text) == Shrink(text, 0)
    ensures Collapse(text) == Trim(Shrink(text, 0))
  {
    assert text[0..] == text;
    SqueezeIsShrink(text, 0);
  }

  lemma {:induction false} SqueezePlain(before: string, t: string)
    requires ']' !in before
    ensures Squeeze(before + t) == before + Squeeze(t)
  {
    if before == "" {
      assert before + t == t;
    } else {
      assert (before + t)[1..] == before[1..] + t;
      SqueezePlain(before[1..], t);
    }
  }

  /** A plain link, two spaces, and a link opening that is never closed: neither side is a
      reference, and yet a space goes. */
  lemma SpaceWithoutReferences(text: string, result: string)
    requires text == "[x](y)  [$z" && result == "[x](y) [$z"
    ensures Collapse(text) == result && References(text) == []
  {
    hide Squeeze, Trim, Refs;
    NoReferenceThere(text, "x](y)  ", "[$z");
    OneGap(text, "[x", "](y)", "[$z");
    TrimInk(result);
  }

  lemma TrimInk(t: string)
    requires t != "" && !IsSpace(t[0]) && !IsSpace(t[|t| - 1])
    ensures Trim(t) == t
  {}

  lemma OneGap(text: string, a: string, v: string, b: string)
    requires text == "[x](y)  [$z" && a == "[x" && v == "](y)" && b == "[$z"
    ensures Squeeze(text) == "[x](y) [$z"
  {
    hide Squeeze;
    assert text == a + (v + ("  " + b));
    SqueezePlain(a, v + ("  " + b));
    GapSqueezes(v, "  " + b, b);
    assert a + (v + (" " + b)) == "[x](y) [$z";
  }

  lemma GapSqueezes(v: string, u: string, b: string)
    requires v == "](y)" && u == "  " + b && b == "[$z"
    ensures Squeeze(v + u) == v + (" " + b)
  {
    hide Squeeze, SpaceGap, LeadSpaces;
    var t := v + u;
    TwoSpaces(u, b);
    assert t[4..] == u && t[..4] == v && t[2..][2..] == u;
    assert t[2] == 'y' && t[3] == ')' && !IsSpace('y');
    ClosedTarget(t[2..], 1);
    assert Gap(t);
    CloseOne(t[2..]);
    SqueezeUnfold(t);
    SqueezePlain(b, "");
    assert b + "" == b && Squeeze("") == "" by { SqueezeFirst(""); }
  }

  lemma CloseOne(t: string)
    requires TargetGap(t) && |t| >= 2 && t[0] != ')' && t[1] == ')'
    ensures CloseLen(t) == 2
  {}

  lemma TwoSpaces(u: string, b: string)
    requires u == "  " + b && b == "[$z"
    ensures SpaceGap(u) && LeadSpaces(u) == 2 && u[2..] == b
  {
    assert LeadSpaces(b) == 0;
    assert u[1..][1..] == b;
    assert LeadSpaces(u[1..]) == 1;
  }

  lemma NoReferenceThere(text: string, y: string, b: string)
    requires text == "[x](y)  [$z" && y == "x](y)  " && b == "[$z"
    ensures References(text) == []
  {
    hide MatchHead, Refs;
    assert text == "[" + (y + b) && text[1..] == y + b;
    assert MatchHead(text).None? by { NoTriggerNoMatch(text); }
    RefsUnfold(text, 0);
    SkipPlain(y, b, 1);
    assert MatchHead(b).None? by { ShortNoMatch(b); }
    RefsUnfold(b, 1 + |y|);
    NoReferences(b[1..], 2 + |y|);
  }

  lemma NoTriggerNoMatch(t: string)
    requires |t| >= 2 && !IsTrigger(t[1])
    ensures MatchHead(t).None?
  {}

  lemma ShortNoMatch(t: string)
    requires |t| < 4
    ensures MatchHead(t).None?
  {}
}
