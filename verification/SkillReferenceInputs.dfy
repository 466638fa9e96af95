/** Texts whose body can be parsed again with a result. */
module SkillReferenceInputs {
  import opened Wrappers
  import opened SkillReference
  import opened SkillReferenceDocs
  import opened SkillReferenceReparse

  // ---------------------------------------------------------------- one link in a text

  lemma LinkAlone(name: string, target: string, tail: string, at: nat)
    requires NameShape(name) && TargetShape(target) && '[' !in tail
    ensures Refs(LinkText('$', name, target) + tail, at) == AsSeq(RefOf(name, target, at))
  {
    hide RefOf, MatchHead;
    LinkIsMatched('$', name, target, tail);
    RefsUnfold(LinkText('$', name, target) + tail, at);
    NoReferences(tail, at + |name| + |target| + 5);
  }

  /** An opening that starts no match, plain text, and a link. */
  lemma LinkBehind(y: string, name: string, target: string, tail: string)
    requires '[' !in y && NameShape(name) && TargetShape(target) && '[' !in tail
    requires MatchHead("[" + (y + (LinkText('$', name, target) + tail))).None?
    ensures Refs("[" + (y + (LinkText('$', name, target) + tail)), 0) == AsSeq(RefOf(name, target, 1 + |y|))
  {
    hide RefOf, MatchHead, LinkText;
    var rest := LinkText('$', name, target) + tail;
    var text := "[" + (y + rest);
    assert text[1..] == y + rest;
    RefsUnfold(text, 0);
    SkipPlain(y, rest, 1);
    LinkAlone(name, target, tail, 1 + |y|);
  }

  lemma BodyOfAlone(x: string, name: string, target: string, tail: string)
    requires Activates(name, target)
    requires Refs(x + LinkText('$', name, target) + tail, 0) == AsSeq(RefOf(name, target, |x|))
    ensures BodyOf(x + LinkText('$', name, target) + tail) == x + (Bracketed(Trim(name)) + tail)
  {
    hide Refs, Trim, KindOf, Normalize;
    var r := RefOf(name, target, |x|).value;
    var none: seq<Reference> := [];
    assert [r] + none == [r];
    BodyHead(x, LinkText('$', name, target), tail, 0, r, none);
  }

  // ---------------------------------------------------------------- a link healed by a neighbour's body

  lemma {:induction false} TargetStopsAtSpace(target: string, after: string)
    requires forall i :: 0 <= i < |target| ==> target[i] != ')' && !IsSpace(target[i])
    requires after != "" && IsSpace(after[0])
    ensures TargetLen(target + after) == |target|
  {
    if target == "" {
      assert target + after == after;
    } else {
      assert (target + after)[1..] == target[1..] + after;
      TargetStopsAtSpace(target[1..], after);
    }
  }

  /** White space inside the target: no match. */
  lemma BrokenLink(name: string, start: string, after: string)
    requires NameShape(name)
    requires forall i :: 0 <= i < |start| ==> start[i] != ')' && !IsSpace(start[i])
    requires after != "" && IsSpace(after[0])
    ensures MatchHead("[$" + name + "](" + start + after).None?
  {
    var t := "[$" + name + "](" + start + after;
    assert t[2..] == name + ("](" + start + after);
    NameStops(name, "](" + start + after);
    assert t[4 + |name|..] == start + after;
    TargetStopsAtSpace(start, after);
    assert t[4 + |name| + |start|] == after[0];
  }

  /** No shown name starts with a trigger, but the link around it was broken by a space that
      trimming removes: the body of `[$q](abc[$a ](command:x)/skill.md)` is a link. */
  lemma HealedLink(text: string, body: string)
    requires text == "[$q](abc[$a ](command:x)/skill.md)" && body == "[$q](abc[a]/skill.md)"
    ensures BodyOf(text) == body
    ensures |References(text)| == 1 && References(text)[0].display == "a"
    ensures |References(body)| == 1
  {
    HealedText(text, body, "$q](abc", "a ", "command:x", "/skill.md)");
    HealedBody(body, "q", "abc[a]/skill.md");
  }

  lemma HealedText(text: string, body: string, y: string, name: string, target: string, tail: string)
    requires text == "[$q](abc[$a ](command:x)/skill.md)" && body == "[$q](abc[a]/skill.md)"
    requires y == "$q](abc" && name == "a " && target == "command:x" && tail == "/skill.md)"
    ensures BodyOf(text) == body && |References(text)| == 1 && References(text)[0].display == "a"
  {
    hide MatchHead, Refs, BodyOf, LinkText, Trim, KindOf, NameShape, TargetShape, Bracketed;
    HealedSplit(text, y, name, target, tail);
    HealedShapes(y, name, target, tail);
    HealedJoin(body, y, tail);
    TrimOne(name);
    CommandTarget(target);
    BrokenText(text, "q", "abc[$a", " ](command:x)/skill.md)");
    OneLinkText(text, body, y, name, target, tail);
  }

  lemma HealedSplit(text: string, y: string, name: string, target: string, tail: string)
    requires text == "[$q](abc[$a ](command:x)/skill.md)"
    requires y == "$q](abc" && name == "a " && target == "command:x" && tail == "/skill.md)"
    ensures text == "[" + (y + (LinkText('$', name, target) + tail))
  {}

  lemma HealedShapes(y: string, name: string, target: string, tail: string)
    requires y == "$q](abc" && name == "a " && target == "command:x" && tail == "/skill.md)"
    ensures '[' !in y && '[' !in tail && NameShape(name) && TargetShape(target)
  {}

  lemma HealedJoin(body: string, y: string, tail: string)
    requires body == "[$q](abc[a]/skill.md)" && y == "$q](abc" && tail == "/skill.md)"
    ensures "[" + y + (Bracketed("a") + tail) == body
  {}

  lemma CommandTarget(target: string)
    requires |target| == 9 && target[..8] == "command:"
    ensures KindOf(target) == Some(CommandRef)
  {
    assert COMMAND_PREFIX <= target;
  }

  /** One link behind an opening that starts no match: what is found, and what is left. */
  lemma OneLinkText(text: string, body: string, y: string, name: string, target: string, tail: string)
    requires text == "[" + (y + (LinkText('$', name, target) + tail)) && MatchHead(text).None?
    requires '[' !in y && '[' !in tail && NameShape(name) && TargetShape(target) && Activates(name, target)
    requires body == "[" + y + (Bracketed(Trim(name)) + tail)
    ensures References(text) == AsSeq(RefOf(name, target, 1 + |y|)) && BodyOf(text) == body
  {
    hide MatchHead, Refs, RefOf, NameShape, TargetShape, LinkText, Bracketed, Activates, Trim, BodyOf;
    LinkBehind(y, name, target, tail);
    JoinFour(y, LinkText('$', name, target), tail);
    BodyOfAlone("[" + y, name, target, tail);
  }

  lemma JoinFour(y: string, link: string, tail: string)
    ensures ("[" + y) + link + tail == "[" + (y + (link + tail)) && |"[" + y| == 1 + |y|
  {}

  lemma TrimOne(name: string)
    requires name == "a "
    ensures Trim(name) == "a"
  {
    assert name[..1] == "a";
  }

  lemma BrokenText(text: string, name: string, start: string, after: string)
    requires text == "[$q](abc[$a ](command:x)/skill.md)"
    requires name == "q" && start == "abc[$a" && after == " ](command:x)/skill.md)"
    ensures MatchHead(text).None?
  {
    hide MatchHead, NameShape;
    assert text == "[$" + name + "](" + start + after;
    assert NameShape(name) by { QIsAName(name); }
    BrokenLink(name, start, after);
  }

  lemma QIsAName(name: string)
    requires name == "q"
    ensures NameShape(name)
  {}

  lemma HealedBody(body: string, name: string, target: string)
    requires body == "[$q](abc[a]/skill.md)" && name == "q" && target == "abc[a]/skill.md"
    ensures |References(body)| == 1
  {
    assert body == LinkText('$', name, target) + "";
    TrimNothing(name);
    assert KindOf(target).Some? by { SkillTarget(target); }
    LinkAlone(name, target, "", 0);
  }

  lemma SkillTarget(target: string)
    requires target == "abc[a]/skill.md"
    ensures KindOf(target).Some?
  {
    assert target[7..] == SKILL_FILE;
    forall i | 0 <= i < |SKILL_FILE| ensures Lower(target[|target| - |SKILL_FILE| + i]) == SKILL_FILE[i] {
      assert target[7..][i] == target[7 + i];
    }
  }

  // ---------------------------------------------------------------- a link inside a name

  /** No shown name starts with a trigger, but one has an opening inside: the body of
      `[$foo[$a](command:x)(command:y)` has a link behind its first characters. */
  lemma LinkInsideName(text: string, body: string)
    requires text == "[$foo[$a](command:x)(command:y)" && body == "[foo[$a](command:y)"
    ensures BodyOf(text) == body
    ensures |References(text)| == 1 && References(text)[0].display == "foo[$a"
    ensures |References(body)| == 1
  {
    InsideText(text, body, "foo[$a", "command:x", "(command:y)");
    InsideBody(body, "foo", "a", "command:y");
  }

  lemma InsideText(text: string, body: string, name: string, target: string, tail: string)
    requires text == "[$foo[$a](command:x)(command:y)" && body == "[foo[$a](command:y)"
    requires name == "foo[$a" && target == "command:x" && tail == "(command:y)"
    ensures BodyOf(text) == body && |References(text)| == 1 && References(text)[0].display == name
  {
    hide MatchHead, Refs, BodyOf, LinkText, Bracketed, Trim, KindOf, NameShape, TargetShape;
    InsideSplit(text, body, name, target, tail);
    InsideShapes(name, target, tail);
    assert Trim(name) == name by { TrimNothing(name); }
    CommandTarget(target);
    assert "" + LinkText('$', name, target) + tail == text;
    assert "" + (Bracketed(name) + tail) == body;
    LinkAlone(name, target, tail, 0);
    BodyOfAlone("", name, target, tail);
  }

  lemma InsideSplit(text: string, body: string, name: string, target: string, tail: string)
    requires text == "[$foo[$a](command:x)(command:y)" && body == "[foo[$a](command:y)"
    requires name == "foo[$a" && target == "command:x" && tail == "(command:y)"
    ensures text == LinkText('$', name, target) + tail && body == Bracketed(name) + tail
  {}

  lemma InsideShapes(name: string, target: string, tail: string)
    requires name == "foo[$a" && target == "command:x" && tail == "(command:y)"
    ensures '[' !in tail && NameShape(name) && TargetShape(target)
  {}

  lemma InsideBody(body: string, y: string, name: string, target: string)
    requires body == "[foo[$a](command:y)" && y == "foo" && name == "a" && target == "command:y"
    ensures |References(body)| == 1
  {
    hide Refs;
    assert MatchHead(body).None? by { assert body[1] == 'f'; }
    hide MatchHead;
    InsideBodySplit(body, y, name, target);
    assert Trim(name) == name by { TrimNothing(name); }
    assert KindOf(target) == Some(CommandRef) by { CommandTarget(target); }
    LinkBehind(y, name, target, "");
  }

  lemma InsideBodySplit(body: string, y: string, name: string, target: string)
    requires body == "[foo[$a](command:y)" && y == "foo" && name == "a" && target == "command:y"
    ensures body == "[" + (y + (LinkText('$', name, target) + ""))
    ensures '[' !in y && NameShape(name) && TargetShape(target)
  {}

  // ---------------------------------------------------------------- a swallowed opening

  function Swallowing(): Doc {
    Linked("", "$y", "command:a", Linked("(", "z)w", "q[$b](command:x", Plain("")))
  }

  /** Judging the names alone is not enough when a target has a `[`: in the body
      `[$y]([$z)w](q[$b](command:x)` the first name completes a match that is no reference,
      it ends inside the second link, and so the target of that link is scanned. */
  lemma SwallowedOpening()
    ensures WellFormed(Swallowing()) && NamesAreQuiet(Swallowing())
    ensures |References(BodyOf(Print(Swallowing())))| == 1
  {
    SwallowedDoc(Swallowing(), "$y", "command:a", "z)w", "q[$b](command:x");
    SwallowedBody("[$y]([$z)w](q[$b](command:x)", "y", "[$z", "w](q", "b", "command:x");
    BodyOfDoc(Swallowing(), 0);
    assert NamesAreQuiet(Swallowing());
  }

  lemma SwallowedDoc(d: Doc, shown: string, target: string, kept: string, kept': string)
    requires shown == "$y" && target == "command:a" && kept == "z)w" && kept' == "q[$b](command:x"
    requires d == Linked("", shown, target, Linked("(", kept, kept', Plain("")))
    ensures WellFormed(d) && BodyDoc(d) == "[$y]([$z)w](q[$b](command:x)"
    ensures Activates(shown, target) && !Activates(kept, kept') && Trim(shown) == shown
    ensures Bracketed(shown) + BodyDoc(d.rest) == "[$y]([$z)w](q[$b](command:x)"
  {
    hide Trim, KindOf, Format, Bracketed, LinkText;
    SwallowedShapes(shown, target, kept, kept');
    FormatPlain(kept, kept');
    assert BodyDoc(Plain("")) == "";
    assert BodyDoc(d.rest) == "(" + (LinkText('$', kept, kept') + "");
    SwallowedJoin(shown, kept, kept');
    var whole := Bracketed(shown) + BodyDoc(d.rest);
    assert BodyDoc(d) == "" + whole == whole;
    assert WellFormed(Plain("")) && WellFormed(d.rest);
  }

  lemma SwallowedShapes(shown: string, target: string, kept: string, kept': string)
    requires shown == "$y" && target == "command:a" && kept == "z)w" && kept' == "q[$b](command:x"
    ensures PlainDisplay(shown) && TargetShape(target) && PlainDisplay(kept) && TargetShape(kept')
    ensures Trim(shown) == shown && KindOf(target) == Some(CommandRef) && KindOf(kept').None?
  {
    hide KindOf, Trim;
    assert Trim(shown) == shown by { TrimNothing(shown); }
    CommandTarget(target);
    NoKind(kept');
  }

  lemma SwallowedJoin(shown: string, kept: string, kept': string)
    requires shown == "$y" && kept == "z)w" && kept' == "q[$b](command:x"
    ensures Bracketed(shown) + ("(" + (LinkText('$', kept, kept') + "")) == "[$y]([$z)w](q[$b](command:x)"
  {}

  lemma NoKind(target: string)
    requires target == "q[$b](command:x" || target == "[$z"
    ensures KindOf(target).None?
  {
    assert target[0] != COMMAND_PREFIX[0] && target[0] != BUILTIN_PREFIX[0];
    assert |target| > 0 && Lower(target[|target| - 1]) != SKILL_FILE[|SKILL_FILE| - 1];
    if |target| >= |SKILL_FILE| {
      assert target[|target| - |SKILL_FILE| + (|SKILL_FILE| - 1)] == target[|target| - 1];
    }
  }

  lemma SwallowedBody(body: string, name: string, target: string, y: string, inner: string, inner': string)
    requires body == "[$y]([$z)w](q[$b](command:x)"
    requires name == "y" && target == "[$z" && y == "w](q" && inner == "b" && inner' == "command:x"
    ensures |References(body)| == 1 && !Refers(body)
  {
    hide LinkText, Trim, KindOf;
    SwallowedBodyShapes(body, name, target, y, inner, inner');
    SkippedMatch(body, name, target, y, inner, inner');
  }

  lemma SwallowedBodyShapes(body: string, name: string, target: string, y: string, inner: string, inner': string)
    requires body == "[$y]([$z)w](q[$b](command:x)"
    requires name == "y" && target == "[$z" && y == "w](q" && inner == "b" && inner' == "command:x"
    ensures body == LinkText('$', name, target) + (y + (LinkText('$', inner, inner') + ""))
    ensures NameShape(name) && TargetShape(target) && '[' !in y && NameShape(inner) && TargetShape(inner')
    ensures KindOf(target).None? && KindOf(inner') == Some(CommandRef) && Trim(inner) == inner
  {
    hide KindOf, Trim;
    NoKind(target);
    CommandTarget(inner');
    TrimNothing(inner);
  }

  /** A match that is no reference, plain text, and a link. */
  lemma SkippedMatch(body: string, name: string, target: string, y: string, inner: string, inner': string)
    requires body == LinkText('$', name, target) + (y + (LinkText('$', inner, inner') + ""))
    requires NameShape(name) && TargetShape(target) && '[' !in y && NameShape(inner) && TargetShape(inner')
    requires KindOf(target).None? && Activates(inner, inner')
    ensures |References(body)| == 1 && !Refers(body)
  {
    hide NameShape, TargetShape, Refs, MatchHead, LinkText, Trim, KindOf, Normalize, NameOf, TargetOf;
    var link := LinkText('$', inner, inner') + "";
    LinkIsMatched('$', name, target, y + link);
    assert body != "" by { LinkNotEmpty('$', name, target); }
    RefsUnfold(body, 0);
    assert RefOf(name, target, 0).None?;
    SkipPlain(y, link, |name| + |target| + 5);
    LinkAlone(inner, inner', "", |name| + |target| + 5 + |y|);
  }

  lemma LinkNotEmpty(trigger: char, name: string, target: string)
    ensures LinkText(trigger, name, target) != ""
  {}

  // ---------------------------------------------------------------- stale suffixes

  lemma BuiltinLink(text: string, name: string, target: string, left: string)
    requires text == LinkText('$', name, target) && name == "a" && TargetShape(target)
    requires BUILTIN_PREFIX <= target && Normalize(target) == left
    ensures |References(text)| == 1 && References(text)[0].target == left
  {
    hide Refs, MatchHead, Normalize, LinkText, TargetShape;
    assert KindOf(target).Some? by { assert COMMAND_PREFIX[0] != target[0]; }
    TrimNothing(name);
    assert text == text + "";
    LinkAlone(name, target, "", 0);
  }

  lemma BuiltinText(text: string, name: string, target: string)
    requires text == "[$a](" + target + ")" && name == "a"
    ensures text == LinkText('$', name, target)
  {
    assert "[" + ['$'] + name + "](" == "[$a](";
  }

  predicate IsInk(c: char) {
    c != ')' && !IsSpace(c)
  }

  lemma InkOfPrefix(t: string)
    requires t == "builtin://x" || t == "builtin:/"
    ensures forall i :: 0 <= i < |t| ==> IsInk(t[i])
  {}

  lemma InkOfSuffix(t: string)
    requires t == "/SKILL.md"
    ensures forall i :: 0 <= i < |t| ==> IsInk(t[i])
  {}

  lemma InkIsTarget(a: string, b: string)
    requires a + b != ""
    requires forall i :: 0 <= i < |a| ==> IsInk(a[i])
    requires forall i :: 0 <= i < |b| ==> IsInk(b[i])
    ensures TargetShape(a + b) && forall i :: 0 <= i < |a + b| ==> IsInk((a + b)[i])
  {
    hide IsSpace;
  }

  lemma StaleAtEnd(target: string, before: string, suffix: string)
    requires target == before + suffix && suffix == "/SKILL.md" && BUILTIN_PREFIX <= target
    ensures !IsClean(target) && Normalize(target) == before
  {
    forall i | 0 <= i < 9 ensures AsciiLower(target[|target| - 9 + i]) == STALE_SUFFIX[i] {
      assert target[|before| + i] == suffix[i];
    }
  }

  lemma PrefixLonger(a: string, b: string)
    requires BUILTIN_PREFIX <= a
    ensures BUILTIN_PREFIX <= a + b
  {}

  /** A target with the suffix twice keeps one of them: `[$a](builtin://x/SKILL.md/SKILL.md)`. */
  lemma StaleSuffixTwice(text: string, once: string, suffix: string)
    requires suffix == "/SKILL.md" && once == "builtin://x" + suffix && text == "[$a](" + (once + suffix) + ")"
    ensures |References(text)| == 1
    ensures References(text)[0].target == once && !IsClean(References(text)[0].target)
  {
    hide LinkText, References, TargetShape, IsInk, IsClean, Normalize;
    InkOfPrefix("builtin://x");
    InkOfSuffix(suffix);
    InkIsTarget("builtin://x", suffix);
    InkIsTarget(once, suffix);
    assert BUILTIN_PREFIX <= "builtin://x";
    PrefixLonger("builtin://x", suffix);
    PrefixLonger(once, suffix);
    StaleAtEnd(once, "builtin://x", suffix);
    StaleAtEnd(once + suffix, once, suffix);
    BuiltinText(text, "a", once + suffix);
    BuiltinLink(text, "a", once + suffix, once);
  }

  /** Of the prefix and the suffix alone, something is left that is of no kind:
      `[$a](builtin://SKILL.md)`. */
  lemma NothingButSuffix(text: string, left: string, suffix: string)
    requires left == "builtin:/" && suffix == "/SKILL.md" && text == "[$a](" + (left + suffix) + ")"
    ensures |References(text)| == 1
    ensures References(text)[0].target == left && KindOf(References(text)[0].target).None?
  {
    hide LinkText, References, TargetShape, KindOf, IsInk, IsClean, Normalize;
    InkOfPrefix(left);
    InkOfSuffix(suffix);
    InkIsTarget(left, suffix);
    assert BUILTIN_PREFIX <= left + suffix by { PrefixAtSlash(left, suffix); }
    StaleAtEnd(left + suffix, left, suffix);
    NothingToName(left);
    BuiltinText(text, "a", left + suffix);
    BuiltinLink(text, "a", left + suffix, left);
  }

  lemma PrefixAtSlash(left: string, suffix: string)
    requires left == "builtin:/" && suffix == "/SKILL.md"
    ensures BUILTIN_PREFIX <= left + suffix
  {
    assert suffix[0] == '/';
    assert BUILTIN_PREFIX == left + [suffix[0]];
    assert (left + suffix)[..|left|] == left;
  }
}
