/** Inline skill and command references: the printer, the scanner behind the reference
    pattern, and the parser with its replacement body (packages/protocol/src/skill-reference.ts). */
module SkillReference {
  import opened Wrappers

  // ---------------------------------------------------------------- characters

  predicate IsTrigger(c: char) {
    c == '$' || c == '\U{A5}' || c == '\U{FFE5}'
  }

  /** `\s`, which is also what `trim` removes. */
  predicate IsSpace(c: char) {
    || '\U{9}' <= c <= '\U{D}' || c == ' ' || c == '\U{A0}' || c == '\U{1680}'
    || '\U{2000}' <= c <= '\U{200A}' || c == '\U{2028}' || c == '\U{2029}' || c == '\U{202F}'
    || c == '\U{205F}' || c == '\U{3000}' || c == '\U{FEFF}'
  }

  function TrimStart(s: string): (r: string)
    ensures r == "" || !IsSpace(r[0])
  {
    if s != "" && IsSpace(s[0]) then TrimStart(s[1..]) else s
  }

  function TrimEnd(s: string): (r: string)
    ensures r <= s
    ensures r == "" || !IsSpace(r[|r| - 1])
    ensures forall i :: |r| <= i < |s| ==> IsSpace(s[i])
  {
    if s != "" && IsSpace(s[|s| - 1]) then TrimEnd(s[..|s| - 1]) else s
  }

  function Trim(s: string): string {
    TrimEnd(TrimStart(s))
  }

  // ---------------------------------------------------------------- targets

  const COMMAND_PREFIX := "command:"
  const BUILTIN_PREFIX := "builtin://"
  const SKILL_FILE := "skill.md"
  const STALE_SUFFIX := "/skill.md"

  /** An upper-case ASCII letter made lower-case. */
  function AsciiLower(c: char): char {
    if 'A' <= c <= 'Z' then (c as int + 32) as char else c
  }

  /** `toLowerCase`, as far as it can yield an ASCII letter: the Kelvin sign lowers to `k`. */
  function Lower(c: char): char {
    if c == '\U{212A}' then 'k' else AsciiLower(c)
  }

  predicate EndsWith(s: string, suffix: string, lower: char -> char) {
    |suffix| <= |s| &&
    forall i :: 0 <= i < |suffix| ==> lower(s[|s| - |suffix| + i]) == suffix[i]
  }

  datatype Kind = SkillRef | CommandRef

  function KindOf(target: string): Option<Kind> {
    if COMMAND_PREFIX <= target then Some(CommandRef)
    else if BUILTIN_PREFIX <= target || EndsWith(target, SKILL_FILE, Lower) then Some(SkillRef)
    else None
  }

  /** `normalizeBuiltinTarget`: the stale suffix of a builtin target is dropped. */
  function Normalize(target: string): string {
    if BUILTIN_PREFIX <= target && EndsWith(target, STALE_SUFFIX, AsciiLower)
    then target[..|target| - |STALE_SUFFIX|]
    else target
  }

  /** No builtin target with the stale suffix. */
  predicate IsClean(target: string) {
    !(BUILTIN_PREFIX <= target && EndsWith(target, STALE_SUFFIX, AsciiLower))
  }

  lemma EndsTwice(t: string)
    requires EndsWith(t, STALE_SUFFIX, AsciiLower)
    ensures EndsWith(t, STALE_SUFFIX + STALE_SUFFIX, AsciiLower)
            <==> EndsWith(t[..|t| - |STALE_SUFFIX|], STALE_SUFFIX, AsciiLower)
  {
    var n, u, twice := |STALE_SUFFIX|, t[..|t| - |STALE_SUFFIX|], STALE_SUFFIX + STALE_SUFFIX;
    if EndsWith(u, STALE_SUFFIX, AsciiLower) {
      forall i | 0 <= i < 2 * n ensures AsciiLower(t[|t| - 2 * n + i]) == twice[i] {
        if i < n {
          assert u[|u| - n + i] == t[|t| - 2 * n + i];
        } else {
          assert t[|t| - n + (i - n)] == t[|t| - 2 * n + i];
        }
      }
    }
    if EndsWith(t, twice, AsciiLower) {
      forall i | 0 <= i < n ensures AsciiLower(u[|u| - n + i]) == STALE_SUFFIX[i] {
        assert u[|u| - n + i] == t[|t| - 2 * n + i] && twice[i] == STALE_SUFFIX[i];
      }
    }
  }

  /** Only one suffix is dropped, so exactly the builtin targets that end with it twice keep
      one. */
  lemma CleanIff(target: string)
    ensures IsClean(Normalize(target))
            <==> !(BUILTIN_PREFIX <= target && EndsWith(target, STALE_SUFFIX + STALE_SUFFIX, AsciiLower))
  {
    if !IsClean(target) {
      EndsTwice(target);
      BuiltinAndStale(target);
    } else if EndsWith(target, STALE_SUFFIX + STALE_SUFFIX, AsciiLower) {
      LastIsStale(target);
    }
  }

  lemma LastIsStale(t: string)
    requires EndsWith(t, STALE_SUFFIX + STALE_SUFFIX, AsciiLower)
    ensures EndsWith(t, STALE_SUFFIX, AsciiLower)
  {
    var n, twice := |STALE_SUFFIX|, STALE_SUFFIX + STALE_SUFFIX;
    forall i | 0 <= i < n ensures AsciiLower(t[|t| - n + i]) == STALE_SUFFIX[i] {
      assert t[|t| - n + i] == t[|t| - 2 * n + (n + i)] && twice[n + i] == STALE_SUFFIX[i];
    }
  }

  lemma StaleSlash(t: string)
    requires EndsWith(t, STALE_SUFFIX, AsciiLower)
    ensures forall j :: |t| - 8 <= j < |t| ==> t[j] != '/'
    ensures EndsWith(t, STALE_SUFFIX + STALE_SUFFIX, AsciiLower) ==> |t| >= 18 && AsciiLower(t[|t| - 18]) == '/'
  {
    forall j | |t| - 8 <= j < |t| ensures t[j] != '/' {
      var i := j - (|t| - 9);
      assert AsciiLower(t[|t| - |STALE_SUFFIX| + i]) == STALE_SUFFIX[i];
    }
    if EndsWith(t, STALE_SUFFIX + STALE_SUFFIX, AsciiLower) {
      assert AsciiLower(t[|t| - 18 + 0]) == (STALE_SUFFIX + STALE_SUFFIX)[0] == STALE_SUFFIX[0];
    }
  }

  /** Prefix and stale suffix share at most the slash, and then nothing is left to name. */
  lemma BuiltinAndStale(t: string)
    requires BUILTIN_PREFIX <= t && EndsWith(t, STALE_SUFFIX, AsciiLower)
    ensures |t| >= 18
    ensures |t| == 18 ==> !(BUILTIN_PREFIX <= Normalize(t)) && Normalize(t) == "builtin:/"
    ensures |t| > 18 ==> BUILTIN_PREFIX <= Normalize(t)
    ensures |t| == 18 ==> !EndsWith(t, STALE_SUFFIX + STALE_SUFFIX, AsciiLower)
  {
    assert t[9] == '/' && t[8] == '/' && t[0] == 'b';
    assert AsciiLower(t[|t| - 9 + 1]) == STALE_SUFFIX[1] == 's';
    StaleSlash(t);
  }

  lemma NothingToName(t: string)
    requires t == "builtin:/"
    ensures KindOf(t).None?
  {
    assert t[0] != COMMAND_PREFIX[0];
    assert Lower(t[|t| - |SKILL_FILE| + 7]) != SKILL_FILE[7];
  }

  /** A target keeps its kind, unless it is the builtin prefix with nothing but the stale
      suffix: then what is left is of no kind. */
  lemma KindSurvivesIff(target: string)
    requires KindOf(target).Some?
    ensures KindOf(Normalize(target)) == KindOf(target) <==> IsClean(target) || |target| > 18
  {
    if !IsClean(target) {
      BuiltinAndStale(target);
      NothingToName("builtin:/");
      assert COMMAND_PREFIX[0] != BUILTIN_PREFIX[0];
    }
  }

  // ---------------------------------------------------------------- the printer

  function Escape(display: string): string {
    if display == "" then ""
    else (if display[0] == '[' || display[0] == ']' then ['\\', display[0]] else [display[0]])
         + Escape(display[1..])
  }

  /** `formatSkillReferenceLink`. */
  function Format(display: string, target: string): string {
    "[$" + Escape(display) + "](" + target + ")"
  }

  // ---------------------------------------------------------------- the pattern

  /** Length of the longest prefix without `]` and line break. */
  function NameLen(t: string): (n: nat)
    ensures n <= |t|
  {
    if t == "" || t[0] == ']' || t[0] == '\n' then 0 else 1 + NameLen(t[1..])
  }

  lemma {:induction false} NameLenStops(t: string)
    ensures forall k :: 0 <= k < NameLen(t) ==> t[k] != ']' && t[k] != '\n'
  {
    if NameLen(t) > 0 {
      NameLenStops(t[1..]);
      forall k | 0 <= k < NameLen(t) ensures t[k] != ']' && t[k] != '\n' {
        if k > 0 { assert t[k] == t[1..][k - 1]; }
      }
    }
  }

  /** Length of the longest prefix without `)` and white space. */
  function TargetLen(t: string): (n: nat)
    ensures n <= |t|
  {
    if t == "" || t[0] == ')' || IsSpace(t[0]) then 0 else 1 + TargetLen(t[1..])
  }

  lemma {:induction false} TargetLenStops(t: string)
    ensures forall k :: 0 <= k < TargetLen(t) ==> t[k] != ')' && !IsSpace(t[k])
  {
    if TargetLen(t) > 0 {
      TargetLenStops(t[1..]);
      forall k | 0 <= k < TargetLen(t) ensures t[k] != ')' && !IsSpace(t[k]) {
        if k > 0 { assert t[k] == t[1..][k - 1]; }
      }
    }
  }

  /** A match at the head of a text: how long the name after the trigger and the target are. */
  datatype Link = Link(name: nat, target: nat) {
    /** `[`, trigger, name, `](`, target, `)`. */
    function Len(): nat { name + target + 5 }
  }

  /** The reference pattern matched at the head of `t`. It leaves no choice: each repeated
      class stops at the first character it excludes, and the next thing has to be there. */
  function MatchHead(t: string): (r: Option<Link>)
    ensures r.Some? ==> r.value.target > 0 && r.value.Len() <= |t|
  {
    if |t| >= 2 && t[0] == '[' && IsTrigger(t[1]) then
      var n := NameLen(t[2..]);
      if n + 3 < |t| && t[n + 2] == ']' && t[n + 3] == '(' then
        var k := TargetLen(t[n + 4..]);
        if k > 0 && n + 4 + k < |t| && t[n + 4 + k] == ')' then Some(Link(n, k)) else None
      else None
    else None
  }

  function LinkText(trigger: char, name: string, target: string): string {
    "[" + [trigger] + name + "](" + target + ")"
  }

  predicate NameShape(name: string) {
    ']' !in name && '\n' !in name
  }

  predicate TargetShape(target: string) {
    target != "" && forall i :: 0 <= i < |target| ==> target[i] != ')' && !IsSpace(target[i])
  }

  function NameOf(t: string, l: Link): string
    requires l.Len() <= |t|
  {
    t[2..2 + l.name]
  }

  function TargetOf(t: string, l: Link): string
    requires l.Len() <= |t|
  {
    t[4 + l.name..4 + l.name + l.target]
  }

  /** What is matched is a link text ... */
  lemma MatchIsLink(t: string)
    requires MatchHead(t).Some?
    ensures var l := MatchHead(t).value;
            && IsTrigger(t[1]) && NameShape(NameOf(t, l)) && TargetShape(TargetOf(t, l))
            && t == LinkText(t[1], NameOf(t, l), TargetOf(t, l)) + t[l.Len()..]
  {
    var l := MatchHead(t).value;
    var name, target := NameOf(t, l), TargetOf(t, l);
    NameLenStops(t[2..]);
    TargetLenStops(t[4 + l.name..]);
    forall k | 0 <= k < |name| ensures name[k] != ']' && name[k] != '\n' { assert name[k] == t[2..][k]; }
    forall k | 0 <= k < |target| ensures target[k] != ')' && !IsSpace(target[k]) {
      assert target[k] == t[4 + l.name..][k];
    }
  }

  lemma {:induction false} NameStops(name: string, after: string)
    requires NameShape(name) && after != "" && after[0] == ']'
    ensures NameLen(name + after) == |name|
  {
    if name == "" {
      assert name + after == after;
    } else {
      assert (name + after)[1..] == name[1..] + after;
      NameStops(name[1..], after);
    }
  }

  lemma {:induction false} TargetStops(target: string, after: string)
    requires forall i :: 0 <= i < |target| ==> target[i] != ')' && !IsSpace(target[i])
    requires after != "" && after[0] == ')'
    ensures TargetLen(target + after) == |target|
  {
    if target == "" {
      assert target + after == after;
    } else {
      assert (target + after)[1..] == target[1..] + after;
      TargetStops(target[1..], after);
    }
  }

  /** ... and every link text is matched, whole, whatever follows it. */
  lemma LinkIsMatched(trigger: char, name: string, target: string, after: string)
    requires IsTrigger(trigger) && NameShape(name) && TargetShape(target)
    ensures var t, l := LinkText(trigger, name, target) + after, Link(|name|, |target|);
            && MatchHead(t) == Some(l) && l.Len() <= |t| && |LinkText(trigger, name, target)| == l.Len()
            && NameOf(t, l) == name && TargetOf(t, l) == target && t[l.Len()..] == after
  {
    var t := LinkText(trigger, name, target) + after;
    assert t[2..] == name + ("](" + target + ")" + after);
    NameStops(name, "](" + target + ")" + after);
    assert t[4 + |name|..] == target + (")" + after);
    TargetStops(target, ")" + after);
  }

  // ---------------------------------------------------------------- parsing

  datatype Reference = Reference(kind: Kind, display: string, target: string, start: nat, end: nat)

  /** What a link is good for at offset `at`: nothing if its name is blank or its target of
      no kind. */
  function RefOf(name: string, target: string, at: nat): Option<Reference> {
    if Trim(name) == "" || KindOf(target).None? then None
    else Some(Reference(KindOf(target).value, Trim(name), Normalize(target), at, at + |name| + |target| + 5))
  }

  function AsSeq(r: Option<Reference>): seq<Reference> {
    if r.Some? then [r.value] else []
  }

  /** The references of the rest `t` of a text, which starts at offset `at`: leftmost first,
      without overlap. */
  function Refs(t: string, at: nat): seq<Reference> {
    if t == "" then []
    else
      var m := MatchHead(t);
      if m.Some? then
        AsSeq(RefOf(NameOf(t, m.value), TargetOf(t, m.value), at)) + Refs(t[m.value.Len()..], at + m.value.Len())
      else Refs(t[1..], at + 1)
  }

  /** Spans in bounds, in order, disjoint, from `from` on in a text of length `n`. */
  ghost predicate Spaced(refs: seq<Reference>, from: nat, n: nat) {
    if refs == [] then from <= n
    else from <= refs[0].start < refs[0].end <= n && Spaced(refs[1..], refs[0].end, n)
  }

  function Bracketed(display: string): string {
    "[" + display + "]"
  }

  /** The rest `t`, from offset `at`, with every reference replaced by its bracketed name. */
  function Body(t: string, at: nat, refs: seq<Reference>): string
    requires Spaced(refs, at, at + |t|)
  {
    if refs == [] then t
    else t[..refs[0].start - at] + Bracketed(refs[0].display) + Body(t[refs[0].end - at..], refs[0].end, refs[1..])
  }

  lemma {:induction false} RefsSpaced(t: string, at: nat)
    ensures Spaced(Refs(t, at), at, at + |t|)
  {
    hide MatchHead, RefOf, AsSeq;
    if t != "" {
      var m := MatchHead(t);
      if m.Some? {
        var n := m.value.Len();
        RefsSpaced(t[n..], at + n);
        SpacedCons(NameOf(t, m.value), TargetOf(t, m.value), Refs(t[n..], at + n), at, at + |t|);
      } else {
        RefsSpaced(t[1..], at + 1);
        SpacedMono(Refs(t[1..], at + 1), at, at + 1, at + |t|);
      }
    }
  }

  lemma SpacedCons(name: string, target: string, rest: seq<Reference>, at: nat, n: nat)
    requires Spaced(rest, at + |name| + |target| + 5, n)
    ensures Spaced(AsSeq(RefOf(name, target, at)) + rest, at, n)
  {
    hide Trim, KindOf, Normalize;
    if RefOf(name, target, at).Some? {
      assert ([RefOf(name, target, at).value] + rest)[1..] == rest;
    } else {
      assert [] + rest == rest;
      SpacedMono(rest, at, at + |name| + |target| + 5, n);
    }
  }

  lemma SpacedMono(refs: seq<Reference>, from: nat, from': nat, n: nat)
    requires Spaced(refs, from', n) && from <= from'
    ensures Spaced(refs, from, n)
  {}

  function References(s: string): seq<Reference> {
    Refs(s, 0)
  }

  function BodyOf(s: string): string {
    RefsSpaced(s, 0);
    Body(s, 0, Refs(s, 0))
  }

  lemma BodyUnfold(t: string, at: nat, refs: seq<Reference>)
    requires refs != [] && Spaced(refs, at, at + |t|)
    ensures var r := refs[0];
            && at <= r.start < r.end <= at + |t| && Spaced(refs[1..], r.end, at + |t|)
            && Body(t, at, refs)
               == t[..r.start - at] + Bracketed(r.display) + Body(t[r.end - at..], r.end, refs[1..])
  {}

  /** The body from a cursor on is one piece, then the body behind the next reference. */
  lemma NextPiece(text: string, cursor: nat, references: seq<Reference>, n: nat)
    requires cursor <= |text| && n < |references| && Spaced(references[n..], cursor, |text|)
    ensures var r := references[n];
            && cursor <= r.start < r.end <= |text| && Spaced(references[n + 1..], r.end, |text|)
            && Body(text[cursor..], cursor, references[n..])
               == (text[cursor..r.start] + Bracketed(r.display)) + Body(text[r.end..], r.end, references[n + 1..])
  {
    hide Body, Spaced, Bracketed;
    var r := references[n];
    var t := text[cursor..];
    assert references[n..][0] == r && references[n..][1..] == references[n + 1..];
    BodyUnfold(t, cursor, references[n..]);
    assert t[..r.start - cursor] == text[cursor..r.start];
    assert t[r.end - cursor..] == text[r.end..];
  }

  lemma PieceMoved(body: string, piece: string, after: string)
    ensures body + (piece + after) == (body + piece) + after
  {}

  lemma BodyAtEnd(text: string, cursor: nat)
    requires cursor <= |text|
    ensures Spaced([], cursor, |text|) && Body(text[cursor..], cursor, []) == text[cursor..]
  {}

  /** `parseInlineReferences`: collect the references, then rebuild the text around them. */
  method ParseInlineReferences(text: string) returns (body: string, references: seq<Reference>)
    ensures references == References(text)
    ensures body == BodyOf(text)
  {
    hide Refs, Bracketed, Body, Spaced;
    references := CollectReferences(text);
    RefsSpaced(text, 0);
    assert text[0..] == text && references[0..] == references;
    body := "";
    var cursor: nat := 0;
    for n := 0 to |references|
      invariant cursor <= |text| && Spaced(references[n..], cursor, |text|)
      invariant body + Body(text[cursor..], cursor, references[n..]) == BodyOf(text)
    {
      var r := references[n];
      NextPiece(text, cursor, references, n);
      var piece := text[cursor..r.start] + Bracketed(r.display);
      PieceMoved(body, piece, Body(text[r.end..], r.end, references[n + 1..]));
      body := body + piece;
      cursor := r.end;
    }
    assert references[|references|..] == [];
    BodyAtEnd(text, cursor);
    body := body + text[cursor..];
  }

  /** The first loop: step through the matches. */
  method CollectReferences(text: string) returns (references: seq<Reference>)
    ensures references == References(text)
  {
    hide MatchHead, RefOf, NameOf, TargetOf, AsSeq, Refs;
    references := [];
    assert text[0..] == text;
    var at := 0;
    while at < |text|
      invariant 0 <= at <= |text|
      invariant references + Refs(text[at..], at) == References(text)
    {
      var here := text[at..];
      var m := MatchHead(here);
      RefsUnfold(here, at);
      if m.None? {
        assert here[1..] == text[at + 1..];
        at := at + 1;
      } else {
        var next := at + m.value.Len();
        var found := AsSeq(RefOf(NameOf(here, m.value), TargetOf(here, m.value), at));
        assert here[m.value.Len()..] == text[next..];
        ghost var after := Refs(text[next..], next);
        assert references + (found + after) == (references + found) + after;
        references := references + found;
        at := next;
      }
    }
    assert text[at..] == "";
    NoMoreRefs(at);
    assert references + [] == references;
  }

  lemma NoMoreRefs(at: nat)
    ensures Refs("", at) == []
  {}

  lemma RefsUnfold(t: string, at: nat)
    requires t != ""
    ensures MatchHead(t).None? ==> Refs(t, at) == Refs(t[1..], at + 1)
    ensures MatchHead(t).Some? ==>
              var l := MatchHead(t).value;
              Refs(t, at) == AsSeq(RefOf(NameOf(t, l), TargetOf(t, l), at)) + Refs(t[l.Len()..], at + l.Len())
  {}

  // ---------------------------------------------------------------- spans, for every text

  lemma {:induction false} SpacedPairwise(refs: seq<Reference>, from: nat, n: nat)
    requires Spaced(refs, from, n)
    ensures forall i :: 0 <= i < |refs| ==> from <= refs[i].start < refs[i].end <= n
    ensures forall i, j :: 0 <= i < j < |refs| ==> refs[i].end <= refs[j].start
  {
    if refs != [] {
      SpacedPairwise(refs[1..], refs[0].end, n);
      forall i | 0 <= i < |refs| ensures from <= refs[i].start < refs[i].end <= n {
        if i > 0 { assert refs[i] == refs[1..][i - 1]; }
      }
      forall i, j | 0 <= i < j < |refs| ensures refs[i].end <= refs[j].start {
        assert refs[j] == refs[1..][j - 1];
        if i > 0 { assert refs[i] == refs[1..][i - 1]; }
      }
    }
  }

  /** For every text: the spans are in bounds, strictly ordered and disjoint. */
  lemma SpansInOrder(s: string)
    ensures var refs := References(s);
            && (forall i :: 0 <= i < |refs| ==> refs[i].start < refs[i].end <= |s|)
            && (forall i, j :: 0 <= i < j < |refs| ==> refs[i].end <= refs[j].start)
  {
    RefsSpaced(s, 0);
    SpacedPairwise(References(s), 0, |s|);
  }

  /** The stretches of the rest `t` outside the references. */
  function Gaps(t: string, at: nat, refs: seq<Reference>): (g: seq<string>)
    requires Spaced(refs, at, at + |t|)
    ensures |g| == |refs| + 1
  {
    if refs == [] then [t]
    else [t[..refs[0].start - at]] + Gaps(t[refs[0].end - at..], refs[0].end, refs[1..])
  }

  /** `gaps[0] fills[0] gaps[1] fills[1] ... gaps[n]`. */
  function Weave(gaps: seq<string>, fills: seq<string>): string
    requires |gaps| == |fills| + 1
  {
    if fills == [] then gaps[0] else gaps[0] + fills[0] + Weave(gaps[1..], fills[1..])
  }

  function Names(refs: seq<Reference>): (r: seq<string>)
    ensures |r| == |refs|
  {
    if refs == [] then [] else [Bracketed(refs[0].display)] + Names(refs[1..])
  }

  /** The original slices of the references. */
  function Slices(s: string, refs: seq<Reference>): (r: seq<string>)
    requires forall i :: 0 <= i < |refs| ==> refs[i].start <= refs[i].end <= |s|
    ensures |r| == |refs|
  {
    if refs == [] then [] else [s[refs[0].start..refs[0].end]] + Slices(s, refs[1..])
  }

  lemma {:induction false} WeaveBoth(s: string, at: nat, refs: seq<Reference>)
    requires at <= |s| && Spaced(refs, at, |s|)
    requires forall i :: 0 <= i < |refs| ==> refs[i].start <= refs[i].end <= |s|
    ensures Body(s[at..], at, refs) == Weave(Gaps(s[at..], at, refs), Names(refs))
    ensures s[at..] == Weave(Gaps(s[at..], at, refs), Slices(s, refs))
    decreases |refs|
  {
    if refs != [] {
      var r := refs[0];
      assert s[at..][r.end - at..] == s[r.end..] && s[at..][..r.start - at] == s[at..r.start];
      WeaveBoth(s, r.end, refs[1..]);
      assert s[at..] == s[at..r.start] + s[r.start..r.end] + s[r.end..];
    }
  }

  /** For every text: the body and the text are woven from the same gaps, one with the
      bracketed names and the other with the original slices, so putting each slice back
      in place of its name restores the text. */
  lemma BodyRestoresText(s: string) returns (gaps: seq<string>)
    ensures |gaps| == |References(s)| + 1
    ensures forall i :: 0 <= i < |References(s)| ==> References(s)[i].start <= References(s)[i].end <= |s|
    ensures BodyOf(s) == Weave(gaps, Names(References(s)))
    ensures s == Weave(gaps, Slices(s, References(s)))
  {
    RefsSpaced(s, 0);
    SpansInOrder(s);
    assert s[0..] == s;
    gaps := Gaps(s, 0, References(s));
    WeaveBoth(s, 0, References(s));
  }

  // ---------------------------------------------------------------- every reference is a link

  /** The slice is a link whose trimmed name and normalised target are the reference's. */
  ghost predicate IsLinkFor(slice: string, r: Reference) {
    exists trigger: char, name: string, target: string ::
      && slice == LinkText(trigger, name, target)
      && IsTrigger(trigger) && NameShape(name) && TargetShape(target)
      && RefOf(name, target, r.start) == Some(r)
  }

  lemma {:induction false} RefComesFromMatch(s: string, i: nat, n: nat) returns (p: nat)
    requires i <= |s| && n < |Refs(s[i..], i)|
    ensures i <= p < |s| && MatchHead(s[p..]).Some?
    ensures var u, l := s[p..], MatchHead(s[p..]).value;
            RefOf(NameOf(u, l), TargetOf(u, l), p) == Some(Refs(s[i..], i)[n])
    decreases |s| - i
  {
    hide MatchHead, RefOf;
    var t := s[i..];
    var m := MatchHead(t);
    RefsUnfold(t, i);
    if m.None? {
      assert t[1..] == s[i + 1..];
      p := RefComesFromMatch(s, i + 1, n);
    } else {
      var next := i + m.value.Len();
      assert t[m.value.Len()..] == s[next..];
      var first, rest := AsSeq(RefOf(NameOf(t, m.value), TargetOf(t, m.value), i)), Refs(s[next..], next);
      assert Refs(t, i) == first + rest;
      if n < |first| {
        p := i;
      } else {
        assert (first + rest)[n] == rest[n - |first|];
        p := RefComesFromMatch(s, next, n - |first|);
      }
    }
  }

  /** For every text: each reference's span is a link with that name and target. */
  lemma ReferencesAreLinks(s: string, n: nat)
    requires n < |References(s)|
    ensures var r := References(s)[n]; r.start <= r.end <= |s| && IsLinkFor(s[r.start..r.end], r)
  {
    hide MatchHead, Refs, NameShape, TargetShape, Trim, KindOf, Normalize;
    assert s[0..] == s;
    var p := RefComesFromMatch(s, 0, n);
    var u := s[p..];
    var l := MatchHead(u).value;
    MatchIsLink(u);
    assert s[p..p + l.Len()] == u[..l.Len()] == LinkText(u[1], NameOf(u, l), TargetOf(u, l));
  }

  /** For every text: a reference's target is free of the stale suffix exactly if the
      target written in its link is no builtin one that ends with the suffix twice, and it
      is of the reference's kind exactly if the written one is more than prefix and suffix. */
  lemma ParsedTargetIsCleanIff(s: string, n: nat) returns (trigger: char, name: string, written: string)
    requires n < |References(s)|
    ensures var r := References(s)[n];
            && r.start <= r.end <= |s| && s[r.start..r.end] == LinkText(trigger, name, written)
            && IsTrigger(trigger) && NameShape(name) && TargetShape(written) && r.target == Normalize(written)
            && (IsClean(r.target)
                <==> !(BUILTIN_PREFIX <= written && EndsWith(written, STALE_SUFFIX + STALE_SUFFIX, AsciiLower)))
            && (KindOf(r.target) == Some(r.kind) <==> IsClean(written) || |written| > 18)
  {
    hide References, NameShape, TargetShape, Trim, KindOf, Normalize, LinkText, IsTrigger, EndsWith;
    var r := References(s)[n];
    ReferencesAreLinks(s, n);
    trigger, name, written :| s[r.start..r.end] == LinkText(trigger, name, written)
      && IsTrigger(trigger) && NameShape(name) && TargetShape(written) && RefOf(name, written, r.start) == Some(r);
    CleanIff(written);
    KindSurvivesIff(written);
    if !IsClean(written) { BuiltinAndStale(written); }
  }

  // ---------------------------------------------------------------- nothing is missed

  /** The matches consumed in the rest `t`, used or not: start and end offset. */
  function Consumed(t: string, at: nat): seq<(nat, nat)> {
    if t == "" then []
    else
      var m := MatchHead(t);
      if m.Some? then [(at, at + m.value.Len())] + Consumed(t[m.value.Len()..], at + m.value.Len())
      else Consumed(t[1..], at + 1)
  }

  /** Wherever the pattern matches, that match was consumed, or it starts inside one that
      was consumed before it. */
  lemma {:induction false} LeftmostMatchesWin(s: string, i: nat, p: nat) returns (n: nat)
    requires i <= p <= |s| && MatchHead(s[p..]).Some?
    ensures n < |Consumed(s[i..], i)| && Consumed(s[i..], i)[n].0 <= p < Consumed(s[i..], i)[n].1
    ensures Consumed(s[i..], i)[n].0 == p ==> Consumed(s[i..], i)[n].1 == p + MatchHead(s[p..]).value.Len()
    decreases |s| - i
  {
    hide MatchHead;
    var t := s[i..];
    var m := MatchHead(t);
    if m.None? {
      assert t[1..] == s[i + 1..];
      n := LeftmostMatchesWin(s, i + 1, p);
    } else if p < i + m.value.Len() {
      n := 0;
    } else {
      var next := i + m.value.Len();
      assert t[m.value.Len()..] == s[next..];
      n := LeftmostMatchesWin(s, next, p);
      assert Consumed(t, i) == [(i, next)] + Consumed(s[next..], next);
      n := n + 1;
    }
  }

  /** The reference of the match at offset `p`, if it counts as one. */
  function RefAt(s: string, p: nat): Option<Reference>
    requires p <= |s| && MatchHead(s[p..]).Some?
  {
    var l := MatchHead(s[p..]).value;
    RefOf(NameOf(s[p..], l), TargetOf(s[p..], l), p)
  }

  ghost predicate AreMatches(s: string, spans: seq<(nat, nat)>) {
    forall n :: 0 <= n < |spans| ==>
      spans[n].0 <= |s| && MatchHead(s[spans[n].0..]).Some? &&
      spans[n].1 == spans[n].0 + MatchHead(s[spans[n].0..]).value.Len()
  }

  lemma {:induction false} ConsumedAreMatches(s: string, i: nat)
    requires i <= |s|
    ensures AreMatches(s, Consumed(s[i..], i))
    decreases |s| - i
  {
    var t := s[i..];
    if t != "" {
      hide MatchHead;
      if MatchHead(t).None? {
        assert t[1..] == s[i + 1..];
        ConsumedAreMatches(s, i + 1);
      } else {
        var next := i + MatchHead(t).value.Len();
        assert t[MatchHead(t).value.Len()..] == s[next..];
        ConsumedAreMatches(s, next);
        assert Consumed(t, i) == [(i, next)] + Consumed(s[next..], next);
      }
    }
  }

  /** The references of the matches in `spans`. */
  ghost function RefsOf(s: string, spans: seq<(nat, nat)>): seq<Reference>
    requires AreMatches(s, spans)
  {
    if spans == [] then [] else AsSeq(RefAt(s, spans[0].0)) + RefsOf(s, spans[1..])
  }

  /** What scanning does at offset `i`: both scans take the same step. */
  lemma ScanStep(s: string, i: nat)
    requires i < |s|
    ensures MatchHead(s[i..]).None? ==>
              Refs(s[i..], i) == Refs(s[i + 1..], i + 1) && Consumed(s[i..], i) == Consumed(s[i + 1..], i + 1)
    ensures MatchHead(s[i..]).Some? ==>
              var next := i + MatchHead(s[i..]).value.Len();
              && next <= |s|
              && Refs(s[i..], i) == AsSeq(RefAt(s, i)) + Refs(s[next..], next)
              && Consumed(s[i..], i) == [(i, next)] + Consumed(s[next..], next)
  {
    hide MatchHead, RefOf, NameOf, TargetOf, AsSeq;
    var t := s[i..];
    RefsUnfold(t, i);
    if MatchHead(t).None? {
      assert t[1..] == s[i + 1..];
    } else {
      assert t[MatchHead(t).value.Len()..] == s[i + MatchHead(t).value.Len()..];
    }
  }

  lemma ScanEnds(s: string, i: nat)
    ensures Refs("", i) == [] && Consumed("", i) == []
    ensures AreMatches(s, []) && RefsOf(s, []) == []
  {}

  /** The references are those of the consumed matches, in order, and no others. */
  lemma {:induction false} RefsAlongMatches(s: string, i: nat)
    requires i <= |s|
    ensures AreMatches(s, Consumed(s[i..], i))
    ensures Refs(s[i..], i) == RefsOf(s, Consumed(s[i..], i))
    decreases |s| - i
  {
    hide MatchHead, RefAt, AreMatches, Refs, Consumed, RefsOf, AsSeq;
    ConsumedAreMatches(s, i);
    if i == |s| {
      assert s[i..] == "";
      ScanEnds(s, i);
    } else {
      ScanStep(s, i);
      if MatchHead(s[i..]).None? {
        RefsAlongMatches(s, i + 1);
      } else {
        var next := i + MatchHead(s[i..]).value.Len();
        RefsAlongMatches(s, next);
        RefsOfCons(s, (i, next), Consumed(s[next..], next));
      }
    }
  }

  lemma RefsOfCons(s: string, span: (nat, nat), spans: seq<(nat, nat)>)
    requires AreMatches(s, [span] + spans) && AreMatches(s, spans)
    ensures span.0 <= |s| && MatchHead(s[span.0..]).Some?
    ensures RefsOf(s, [span] + spans) == AsSeq(RefAt(s, span.0)) + RefsOf(s, spans)
  {
    hide MatchHead, RefAt;
    var all := [span] + spans;
    assert all[0] == span && all[1..] == spans;
  }

  lemma {:induction false} RefsOfHas(s: string, spans: seq<(nat, nat)>, n: nat)
    requires AreMatches(s, spans) && n < |spans| && RefAt(s, spans[n].0).Some?
    ensures RefAt(s, spans[n].0).value in RefsOf(s, spans)
  {
    hide MatchHead, RefAt;
    if n > 0 { RefsOfHas(s, spans[1..], n - 1); }
  }

  /** Nothing is missed, for every text: wherever the pattern matches, the match starts
      inside one consumed before it, or counts as no reference, or is among the references. */
  lemma NothingIsMissed(s: string, p: nat)
    requires p <= |s| && MatchHead(s[p..]).Some?
    ensures || (exists n :: 0 <= n < |Consumed(s, 0)| && Consumed(s, 0)[n].0 < p < Consumed(s, 0)[n].1)
            || RefAt(s, p).None?
            || RefAt(s, p).value in References(s)
  {
    hide MatchHead, RefAt, Consumed;
    assert s[0..] == s;
    RefsAlongMatches(s, 0);
    var n := LeftmostMatchesWin(s, 0, p);
    if Consumed(s, 0)[n].0 == p && RefAt(s, p).Some? {
      RefsOfHas(s, Consumed(s, 0), n);
    }
  }
}
