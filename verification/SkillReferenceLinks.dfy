/** One link in plain text, character by character: when it is a reference and what is made
    of it. */
module SkillReferenceLinks {
  import opened Wrappers
  import opened SkillReference
  import opened SkillReferenceDocs
  import opened SkillReferenceWhitespace

  // ---------------------------------------------------------------- the characters, by number

  /** Tab to carriage return, the space characters of Unicode, line and paragraph separator,
      and the byte order mark. */
  predicate IsBlank(c: char) {
    var n := c as int;
    || 9 <= n <= 13 || n == 32 || n == 160 || n == 5760 || 8192 <= n <= 8202 || n == 8232 || n == 8233
    || n == 8239 || n == 8287 || n == 12288 || n == 65279
  }

  /** The dollar sign, the yen sign and the full-width yen sign. */
  predicate IsSign(c: char) {
    c as int == 36 || c as int == 165 || c as int == 65509
  }

  lemma SameCharacters(c: char)
    ensures IsSpace(c) <==> IsBlank(c)
    ensures IsTrigger(c) <==> IsSign(c)
  {}

  predicate AllBlank(s: string) {
    forall i :: 0 <= i < |s| ==> IsBlank(s[i])
  }

  /** `inner` is `s` without the white space at its ends. */
  ghost predicate IsTrimmed(inner: string, s: string) {
    && (inner == "" || (!IsBlank(inner[0]) && !IsBlank(inner[|inner| - 1])))
    && exists a, b :: AllBlank(a) && AllBlank(b) && s == a + inner + b
  }

  lemma {:induction false} TrimStartCuts(s: string) returns (a: string)
    ensures AllBlank(a) && s == a + TrimStart(s)
  {
    if s != "" && IsSpace(s[0]) {
      var b := TrimStartCuts(s[1..]);
      a := [s[0]] + b;
      SameCharacters(s[0]);
    } else {
      a := "";
    }
  }

  lemma TrimIs(s: string)
    ensures IsTrimmed(Trim(s), s)
  {
    hide TrimStart, TrimEnd, IsSpace, IsBlank;
    var u := TrimStart(s);
    var a := TrimStartCuts(s);
    var t := TrimEnd(u);
    var b := u[|t|..];
    forall i | 0 <= i < |b| ensures IsBlank(b[i]) {
      assert b[i] == u[|t| + i];
      SameCharacters(b[i]);
    }
    assert u == t + b && s == a + t + b;
    assert AllBlank(a) && AllBlank(b);
    if t != "" {
      assert t[0] == u[0];
      SameCharacters(t[0]);
      SameCharacters(t[|t| - 1]);
    }
  }

  lemma TrimmedIsEmptyIff(inner: string, s: string)
    requires IsTrimmed(inner, s)
    ensures inner == "" <==> AllBlank(s)
  {
    hide IsBlank;
    var a, b :| AllBlank(a) && AllBlank(b) && s == a + inner + b;
    if inner != "" {
      assert s[|a|] == inner[0];
    } else {
      forall i | 0 <= i < |s| ensures IsBlank(s[i]) {
        assert s[i] == if i < |a| then a[i] else b[i - |a|];
      }
    }
  }

  // ---------------------------------------------------------------- targets, by letters

  /** The character `l` in either case; the Kelvin sign counts as a `k` if `kelvin`. */
  predicate IsLetter(c: char, l: char, kelvin: bool) {
    c == l || ('a' <= l <= 'z' && c as int + 32 == l as int) || (kelvin && l == 'k' && c as int == 8490)
  }

  predicate EndsInAnyCase(t: string, suffix: string, kelvin: bool) {
    |suffix| <= |t| && forall i :: 0 <= i < |suffix| ==> IsLetter(t[|t| - |suffix| + i], suffix[i], kelvin)
  }

  predicate EndsWithSkillFile(t: string) {
    EndsInAnyCase(t, "skill.md", true)
  }

  predicate EndsWithStale(t: string) {
    EndsInAnyCase(t, "/skill.md", false)
  }

  lemma LowerIs(c: char, l: char)
    requires !('A' <= l <= 'Z') && l as int < 128
    ensures AsciiLower(c) == l <==> IsLetter(c, l, false)
    ensures Lower(c) == l <==> IsLetter(c, l, true)
  {}

  lemma SuffixIff(t: string, suffix: string)
    requires forall i :: 0 <= i < |suffix| ==> !('A' <= suffix[i] <= 'Z') && suffix[i] as int < 128
    ensures EndsWith(t, suffix, AsciiLower) <==> EndsInAnyCase(t, suffix, false)
    ensures EndsWith(t, suffix, Lower) <==> EndsInAnyCase(t, suffix, true)
  {
    hide AsciiLower, Lower, IsLetter;
    if |suffix| <= |t| {
      forall i | 0 <= i < |suffix|
        ensures AsciiLower(t[|t| - |suffix| + i]) == suffix[i] <==> IsLetter(t[|t| - |suffix| + i], suffix[i], false)
        ensures Lower(t[|t| - |suffix| + i]) == suffix[i] <==> IsLetter(t[|t| - |suffix| + i], suffix[i], true)
      {
        LowerIs(t[|t| - |suffix| + i], suffix[i]);
      }
    }
  }

  lemma SkillFileIff(t: string)
    ensures EndsWith(t, SKILL_FILE, Lower) <==> EndsWithSkillFile(t)
  {
    SuffixIff(t, "skill.md");
  }

  lemma StaleIff(t: string)
    ensures EndsWith(t, STALE_SUFFIX, AsciiLower) <==> EndsWithStale(t)
    ensures |STALE_SUFFIX| == 9
  {
    SuffixIff(t, "/skill.md");
  }

  /** A command target starts with `command:`; a skill target starts with `builtin://` or is
      the path of a skill file; nothing else is of a kind. */
  lemma KindIs(t: string)
    ensures KindOf(t) == Some(CommandRef) <==> "command:" <= t
    ensures KindOf(t) == Some(SkillRef) <==> !("command:" <= t) && ("builtin://" <= t || EndsWithSkillFile(t))
    ensures KindOf(t) == None <==> !("command:" <= t) && !("builtin://" <= t) && !EndsWithSkillFile(t)
  {
    hide EndsWith, EndsInAnyCase;
    SkillFileIff(t);
  }

  // ---------------------------------------------------------------- one link

  /** The link has the pattern's shape: no `]` and no line break in its name; a target, and
      no `)` and no white space in it. */
  predicate HasShape(name: string, target: string) {
    && (forall i :: 0 <= i < |name| ==> name[i] != ']' && name[i] as int != 10)
    && target != ""
    && (forall i :: 0 <= i < |target| ==> target[i] != ')' && !IsBlank(target[i]))
  }

  lemma ShapesAre(name: string, target: string)
    ensures HasShape(name, target) <==> NameShape(name) && TargetShape(target)
  {
    hide IsSpace, IsBlank;
    forall c: char ensures IsSpace(c) <==> IsBlank(c) { SameCharacters(c); }
    assert '\n' as int == 10;
  }

  /** The link is a reference: a sign, a name that is not blank, and a target of a kind. */
  predicate IsReferenceLink(sign: char, name: string, target: string) {
    IsSign(sign) && !AllBlank(name) &&
    ("command:" <= target || "builtin://" <= target || EndsWithSkillFile(target))
  }

  /** What the reference says, and where it stands. */
  ghost predicate IsReferenceOf(r: Reference, name: string, target: string, start: nat, end: nat) {
    && r.kind == (if "command:" <= target then CommandRef else SkillRef)
    && IsTrimmed(r.display, name)
    && (if "builtin://" <= target && EndsWithStale(target)
        then |target| == |r.target| + 9 && r.target == target[..|r.target|]
        else r.target == target)
    && r.start == start && r.end == end
  }

  /** A link between plain texts, with no other opening bracket around: it is the one
      reference found exactly if it starts with a sign, has a name and a target of a kind;
      and then the body has the trimmed name in brackets in its place. */
  lemma OneLink(before: string, sign: char, name: string, target: string, after: string)
    requires HasShape(name, target) && sign != '['
    requires '[' !in before && '[' !in name && '[' !in target && '[' !in after
    ensures var link := "[" + [sign] + name + "](" + target + ")";
            var text := before + link + after;
            var refs := References(text);
            if IsReferenceLink(sign, name, target) then
              && |refs| == 1
              && IsReferenceOf(refs[0], name, target, |before|, |before| + |name| + |target| + 5)
              && BodyOf(text) == before + ("[" + refs[0].display + "]") + after
            else refs == [] && BodyOf(text) == text
  {
    hide Refs, MatchHead, RefOf, BodyOf, IsReferenceOf, IsReferenceLink, IsTrigger, IsSign, HasShape, LinkText;
    var link := "[" + [sign] + name + "](" + target + ")";
    var text := before + link + after;
    SameCharacters(sign);
    assert text == before + (link + after);
    SkipPlain(before, link + after, 0);
    LinkRefsAre(sign, name, target);
    if IsTrigger(sign) {
      SignedLink(sign, name, target, after, |before|);
      NoReferenceOtherwise(name, target, |before|);
      if RefOf(name, target, |before|).Some? {
        ReferenceIs(name, target, |before|);
        BodyOfOne(before, link, after, RefOf(name, target, |before|).value);
      } else {
        BodyOfPlain(text);
      }
    } else {
      UnsignedLink(sign, name, target, after, |before|);
      BodyOfPlain(text);
    }
  }

  lemma SignedLink(sign: char, name: string, target: string, after: string, at: nat)
    requires IsTrigger(sign) && HasShape(name, target) && '[' !in after
    ensures Refs("[" + [sign] + name + "](" + target + ")" + after, at) == AsSeq(RefOf(name, target, at))
  {
    hide Refs, MatchHead, RefOf, NameShape, TargetShape, HasShape, LinkText, AsSeq;
    ShapesAre(name, target);
    SameLinkText(sign, name, target);
    LinkIsMatched(sign, name, target, after);
    RefsUnfold(LinkText(sign, name, target) + after, at);
    NoReferences(after, at + |name| + |target| + 5);
    assert AsSeq(RefOf(name, target, at)) + [] == AsSeq(RefOf(name, target, at));
  }

  lemma UnsignedLink(sign: char, name: string, target: string, after: string, at: nat)
    requires !IsTrigger(sign) && sign != '[' && '[' !in name && '[' !in target && '[' !in after
    ensures Refs("[" + [sign] + name + "](" + target + ")" + after, at) == []
  {
    hide Refs, MatchHead, IsTrigger;
    var t := "[" + [sign] + name + "](" + target + ")" + after;
    assert t[1] == sign && t[1..] == [sign] + name + "](" + target + ")" + after;
    NoTriggerNoMatch(t);
    RefsUnfold(t, at);
    NoReferences(t[1..], at + 1);
  }

  lemma SameLinkText(sign: char, name: string, target: string)
    ensures "[" + [sign] + name + "](" + target + ")" == LinkText(sign, name, target)
  {}

  lemma LinkRefsAre(sign: char, name: string, target: string)
    ensures IsReferenceLink(sign, name, target) <==> IsSign(sign) && Trim(name) != "" && KindOf(target).Some?
  {
    hide Trim, KindOf, AllBlank, EndsWithSkillFile, IsTrimmed;
    TrimIs(name);
    TrimmedIsEmptyIff(Trim(name), name);
    KindIs(target);
  }

  lemma NoReferenceOtherwise(name: string, target: string, at: nat)
    ensures RefOf(name, target, at).Some? <==> Trim(name) != "" && KindOf(target).Some?
  {}

  lemma ReferenceIs(name: string, target: string, at: nat)
    requires Trim(name) != "" && KindOf(target).Some?
    ensures var r := RefOf(name, target, at);
            r.Some? && r.value.display == Trim(name) &&
            IsReferenceOf(r.value, name, target, at, at + |name| + |target| + 5)
    ensures RefOf(name, target, at).value.start == at && RefOf(name, target, at).value.end == at + |name| + |target| + 5
  {
    hide Trim, KindOf, EndsWith, EndsWithStale, EndsWithSkillFile, IsTrimmed;
    TrimIs(name);
    KindIs(target);
    StaleIff(target);
    if EndsWith(target, STALE_SUFFIX, AsciiLower) { StaleIsLong(target); }
  }

  lemma StaleIsLong(t: string)
    requires EndsWithStale(t)
    ensures |t| >= 9
  {}

  lemma BodyOfPlain(text: string)
    requires Refs(text, 0) == []
    ensures BodyOf(text) == text
  {}

  lemma BodyOfOne(before: string, link: string, after: string, r: Reference)
    requires Refs(before + link + after, 0) == [r] && r.start == |before| && r.end == |before| + |link|
    ensures BodyOf(before + link + after) == before + ("[" + r.display + "]") + after
  {
    hide Refs;
    var text := before + link + after;
    RefsSpaced(text, 0);
    BodyUnfold(text, 0, [r]);
    assert [r][1..] == [];
    assert text[..|before|] == before && text[|before| + |link|..] == after;
  }

  // ---------------------------------------------------------------- escaping

  function Unescape(s: string): string {
    if s == "" then ""
    else if |s| >= 2 && s[0] == '\\' && (s[1] == '[' || s[1] == ']') then [s[1]] + Unescape(s[2..])
    else [s[0]] + Unescape(s[1..])
  }

  /** Every bracket has a backslash of its own before it. */
  predicate BracketsAreEscaped(s: string) {
    s == "" ||
    (if s[0] == '\\' && |s| >= 2 && (s[1] == '[' || s[1] == ']') then BracketsAreEscaped(s[2..])
     else s[0] != '[' && s[0] != ']' && BracketsAreEscaped(s[1..]))
  }

  /** A printed link is its escaped name and its target in the link form; every bracket of
      the name is escaped, and taking the escapes away gives the name back. */
  lemma FormatEscapes(display: string, target: string)
    ensures var n := |Format(display, target)| - |target| - 5;
            && n >= 0
            && Format(display, target) == "[$" + Escape(display) + "](" + target + ")"
            && |Escape(display)| == n
            && BracketsAreEscaped(Escape(display)) && Unescape(Escape(display)) == display
  {
    hide Escape;
    EscapeIsUndone(display);
  }

  lemma {:induction false} EscapeIsUndone(s: string)
    ensures BracketsAreEscaped(Escape(s)) && Unescape(Escape(s)) == s
  {
    if s != "" {
      var rest := Escape(s[1..]);
      EscapeIsUndone(s[1..]);
      if s[0] == '[' || s[0] == ']' {
        var e := ['\\', s[0]] + rest;
        assert e[2..] == rest && e[0] == '\\' && e[1] == s[0];
      } else {
        var e := [s[0]] + rest;
        assert e[1..] == rest && e[0] == s[0];
        EscapeStartsNoBracket(s[1..]);
      }
      assert s == [s[0]] + s[1..];
    }
  }

  lemma EscapeStartsNoBracket(s: string)
    ensures Escape(s) != "" ==> Escape(s)[0] != '[' && Escape(s)[0] != ']'
  {}

  // ---------------------------------------------------------------- gaps

  /** From `p` to `i` stands `](`, a target and `)`; from `i` to `j` two or more blanks; at
      `j` an opening bracket and a sign. */
  ghost predicate IsGap(s: string, p: nat, i: nat, j: nat) {
    && p + 4 <= i && i + 2 <= j && j + 2 <= |s|
    && s[p] == ']' && s[p + 1] == '(' && s[i - 1] == ')'
    && (forall k :: p + 2 <= k < i - 1 ==> s[k] != ')' && !IsBlank(s[k]))
    && (forall k :: i <= k < j ==> IsBlank(s[k]))
    && s[j] == '[' && IsSign(s[j + 1])
  }

  lemma {:induction false} LeadIs(t: string, n: nat)
    requires n < |t| && (forall k :: 0 <= k < n ==> IsSpace(t[k])) && !IsSpace(t[n])
    ensures LeadSpaces(t) == n
  {
    if n > 0 { LeadIs(t[1..], n - 1); }
  }

  /** The runs that shrink are those between such an end of a link and such an opening. */
  lemma GapAtIff(s: string, i: nat)
    requires i <= |s|
    ensures GapAt(s, i) <==> exists p, j :: IsGap(s, p, i, j)
    ensures forall p, j :: IsGap(s, p, i, j) ==> j == i + LeadSpaces(s[i..])
  {
    hide IsSpace, IsBlank, IsTrigger, IsSign, LeadSpaces;
    forall c: char ensures (IsSpace(c) <==> IsBlank(c)) && (IsTrigger(c) <==> IsSign(c)) { SameCharacters(c); }
    forall p, j | IsGap(s, p, i, j) ensures j == i + LeadSpaces(s[i..]) && GapAt(s, i) {
      GapFrom(s, p, i, j);
    }
    if GapAt(s, i) {
      var j := i + LeadSpaces(s[i..]);
      var p :| 0 <= p < i && LinkTail(s[p..i]);
      GapTo(s, p, i);
    }
  }

  lemma GapFrom(s: string, p: nat, i: nat, j: nat)
    requires IsGap(s, p, i, j)
    ensures j == i + LeadSpaces(s[i..]) && GapAt(s, i)
  {
    hide IsSpace, IsBlank, IsTrigger, IsSign, LeadSpaces;
    var t, v := s[i..], s[p..i];
    SameCharacters(s[j + 1]);
    SameCharacters('[');
    assert !IsBlank('[') by { BracketIsInk(); }
    forall k | 0 <= k < j - i ensures IsSpace(t[k]) {
      assert t[k] == s[i + k];
      SameCharacters(t[k]);
    }
    LeadIs(t, j - i);
    assert t[j - i..] == s[j..];
    forall k | 2 <= k < |v| - 1 ensures v[k] != ')' && !IsSpace(v[k]) {
      assert v[k] == s[p + k];
      SameCharacters(v[k]);
    }
    assert LinkTail(v);
  }

  lemma BracketIsInk()
    ensures !IsBlank('[')
  {}

  lemma GapTo(s: string, p: nat, i: nat)
    requires p < i <= |s| && LinkTail(s[p..i]) && SpaceGap(s[i..])
    ensures IsGap(s, p, i, i + LeadSpaces(s[i..]))
  {
    hide IsSpace, IsBlank, IsTrigger, IsSign, LeadSpaces;
    var t, v := s[i..], s[p..i];
    var n := LeadSpaces(t);
    var j := i + n;
    assert t[n..][0] == s[j] && t[n..][1] == s[j + 1];
    SameCharacters(s[j + 1]);
    forall k | i <= k < j ensures IsBlank(s[k]) {
      LeadIsSpace(t, k - i);
      assert t[k - i] == s[k];
      SameCharacters(s[k]);
    }
    assert s[p] == v[0] && s[p + 1] == v[1] && s[i - 1] == v[|v| - 1];
    forall k | p + 2 <= k < i - 1 ensures s[k] != ')' && !IsBlank(s[k]) {
      assert s[k] == v[k - p];
      SameCharacters(s[k]);
    }
  }
}
