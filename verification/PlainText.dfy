/** Escaping text for a page, and reading a shop's page back as text. Text is what it is
    in JavaScript: any sequence of UTF-16 code units. */
module PlainText {
  import opened Basics
  import opened Characters

  type CodeUnit = u: int | 0 <= u < 0x1_0000
  type Text = seq<CodeUnit>

  const AMP: CodeUnit := 38         // &
  const LT: CodeUnit := 60          // <
  const GT: CodeUnit := 62          // >
  const QUOT: CodeUnit := 34        // "
  const APOS: CodeUnit := 39        // '
  const HASH: CodeUnit := 35        // #
  const SEMICOLON: CodeUnit := 59   // ;
  const SLASH: CodeUnit := 47       // /
  const SPACE: CodeUnit := 32

  // ---------------------------------------------------------------------------------------
  // Escaping.

  const AMP_ENTITY: Text := [38, 97, 109, 112, 59]             // &amp;
  const LT_ENTITY: Text := [38, 108, 116, 59]                  // &lt;
  const GT_ENTITY: Text := [38, 103, 116, 59]                  // &gt;
  const QUOT_ENTITY: Text := [38, 113, 117, 111, 116, 59]      // &quot;
  const APOS_ENTITY: Text := [38, 35, 51, 57, 59]              // &#39;

  function ReplaceUnit(t: Text, unit: CodeUnit, put: Text): Text {
    if t == [] then [] else (if t[0] == unit then put else [t[0]]) + ReplaceUnit(t[1..], unit, put)
  }

  /** Five passes over the whole text, one after another, the ampersand first. */
  function Escaped(value: Text): Text {
    ReplaceUnit(ReplaceUnit(ReplaceUnit(ReplaceUnit(ReplaceUnit(
      value, AMP, AMP_ENTITY), LT, LT_ENTITY), GT, GT_ENTITY), QUOT, QUOT_ENTITY), APOS, APOS_ENTITY)
  }

  /** What one character on its own becomes. */
  function EscapedUnit(u: CodeUnit): Text {
    if u == AMP then AMP_ENTITY
    else if u == LT then LT_ENTITY
    else if u == GT then GT_ENTITY
    else if u == QUOT then QUOT_ENTITY
    else if u == APOS then APOS_ENTITY
    else [u]
  }

  function EachEscaped(t: Text): Text { if t == [] then [] else EscapedUnit(t[0]) + EachEscaped(t[1..]) }

  lemma {:induction false} ReplaceJoined(a: Text, b: Text, unit: CodeUnit, put: Text)
    ensures ReplaceUnit(a + b, unit, put) == ReplaceUnit(a, unit, put) + ReplaceUnit(b, unit, put)
  {
    if a == [] {
      assert a + b == b;
    } else {
      assert (a + b)[1..] == a[1..] + b;
      ReplaceJoined(a[1..], b, unit, put);
    }
  }

  lemma {:induction false} ReplaceAbsent(t: Text, unit: CodeUnit, put: Text)
    requires unit !in t
    ensures ReplaceUnit(t, unit, put) == t
  {
    if t != [] { ReplaceAbsent(t[1..], unit, put); }
  }

  lemma EscapedJoined(a: Text, b: Text)
    ensures Escaped(a + b) == Escaped(a) + Escaped(b)
  {
    var a1, b1 := ReplaceUnit(a, AMP, AMP_ENTITY), ReplaceUnit(b, AMP, AMP_ENTITY);
    var a2, b2 := ReplaceUnit(a1, LT, LT_ENTITY), ReplaceUnit(b1, LT, LT_ENTITY);
    var a3, b3 := ReplaceUnit(a2, GT, GT_ENTITY), ReplaceUnit(b2, GT, GT_ENTITY);
    var a4, b4 := ReplaceUnit(a3, QUOT, QUOT_ENTITY), ReplaceUnit(b3, QUOT, QUOT_ENTITY);
    ReplaceJoined(a, b, AMP, AMP_ENTITY);
    ReplaceJoined(a1, b1, LT, LT_ENTITY);
    ReplaceJoined(a2, b2, GT, GT_ENTITY);
    ReplaceJoined(a3, b3, QUOT, QUOT_ENTITY);
    ReplaceJoined(a4, b4, APOS, APOS_ENTITY);
  }

  lemma ReplaceOne(u: CodeUnit, unit: CodeUnit, put: Text)
    ensures ReplaceUnit([u], unit, put) == if u == unit then put else [u]
  {
    assert [u][1..] == [];
  }

  /** A pass over one character, or over something a pass before it wrote. */
  lemma Pass(t: Text, u: CodeUnit, unit: CodeUnit, put: Text)
    requires t == [u] || unit !in t
    ensures ReplaceUnit(t, unit, put) == if t == [u] && u == unit then put else t
  {
    if t == [u] { ReplaceOne(u, unit, put); } else { ReplaceAbsent(t, unit, put); }
  }

  lemma FivePasses(t: Text, t1: Text, t2: Text, t3: Text, t4: Text, t5: Text)
    requires ReplaceUnit(t, AMP, AMP_ENTITY) == t1 && ReplaceUnit(t1, LT, LT_ENTITY) == t2 && ReplaceUnit(t2, GT, GT_ENTITY) == t3
    requires ReplaceUnit(t3, QUOT, QUOT_ENTITY) == t4 && ReplaceUnit(t4, APOS, APOS_ENTITY) == t5
    ensures Escaped(t) == t5
  {
  }

  /** No later pass touches what an earlier one wrote. */
  lemma EscapedOne(u: CodeUnit)
    ensures Escaped([u]) == EscapedUnit(u)
  {
    var t1 := if u == AMP then AMP_ENTITY else [u];
    var t2 := if u == LT then LT_ENTITY else t1;
    var t3 := if u == GT then GT_ENTITY else t2;
    var t4 := if u == QUOT then QUOT_ENTITY else t3;
    assert t1 != [u] ==> LT !in t1;
    assert t2 != [u] ==> GT !in t2;
    assert t3 != [u] ==> QUOT !in t3;
    assert t4 != [u] ==> APOS !in t4;
    Pass([u], u, AMP, AMP_ENTITY);
    Pass(t1, u, LT, LT_ENTITY);
    Pass(t2, u, GT, GT_ENTITY);
    Pass(t3, u, QUOT, QUOT_ENTITY);
    Pass(t4, u, APOS, APOS_ENTITY);
    FivePasses([u], t1, t2, t3, t4, EscapedUnit(u));
  }

  /** Five sequential replacements are one substitution, character by character. */
  lemma {:induction false} EscapedIsOneSubstitution(t: Text)
    ensures Escaped(t) == EachEscaped(t)
  {
    if t != [] {
      EscapedJoined([t[0]], t[1..]);
      EscapedOne(t[0]);
      EscapedIsOneSubstitution(t[1..]);
      assert [t[0]] + t[1..] == t;
    }
  }

  // ---------------------------------------------------------------------------------------
  // A global replacement by a pattern.

  /** A pattern at the head of a text: how much of it matches, and what is put there. */
  datatype Match = Miss | Hit(length: nat, put: Text)

  type Pattern = Text -> Match

  function ReplaceAll(t: Text, at: Pattern): Text
    decreases |t|
  {
    if t == [] then []
    else match at(t)
      case Hit(length, put) =>
        if 0 < length <= |t| then put + ReplaceAll(t[length..], at) else [t[0]] + ReplaceAll(t[1..], at)
      case Miss => [t[0]] + ReplaceAll(t[1..], at)
  }

  // ---------------------------------------------------------------------------------------
  // Character classes, without regard to case, and runs of them.

  predicate IsSpace(u: CodeUnit) { IsSpaceCode(u) }

  predicate IsLetter(u: CodeUnit) { 65 <= u <= 90 || 97 <= u <= 122 }
  predicate IsDigit(u: CodeUnit) { 48 <= u <= 57 }
  predicate IsHexDigit(u: CodeUnit) { IsDigit(u) || 65 <= u <= 70 || 97 <= u <= 102 }
  predicate IsAlphanumeric(u: CodeUnit) { IsLetter(u) || IsDigit(u) }
  predicate IsWord(u: CodeUnit) { IsAlphanumeric(u) || u == 95 }

  function LowerUnit(u: CodeUnit): CodeUnit { if 65 <= u <= 90 then u + 32 else u }

  function Lower(t: Text): Text { seq(|t|, i requires 0 <= i < |t| => LowerUnit(t[i])) }

  /** An ASCII name as a Dafny string, to look it up by. */
  function Spelled(t: Text): string { seq(|t|, i requires 0 <= i < |t| => if t[i] < 128 then t[i] as char else '?') }

  // ---------------------------------------------------------------------------------------
  // The three patterns of `plainTextOf`.

  /** `>` and everything before it: how far to go past it, or 0 where there is none. */
  function PastGt(t: Text): nat {
    var n := RunOf(t, (u: CodeUnit) => u != GT);
    if n < |t| then n + 1 else 0
  }

  const SCRIPT: Text := [115, 99, 114, 105, 112, 116]   // script
  const STYLE: Text := [115, 116, 121, 108, 101]        // style

  predicate StartsWithName(t: Text, name: Text) { |name| <= |t| && Lower(t[..|name|]) == Lower(name) }

  /** `</`, the same name again, spaces and `>`: its length, or 0. */
  function CloseTagLength(t: Text, name: Text): nat {
    if |t| >= 2 && t[0] == LT && t[1] == SLASH && StartsWithName(t[2..], name) then
      var after := 2 + |name|;
      var end := after + RunOf(t[after..], IsSpace);
      if end < |t| && t[end] == GT then end + 1 else 0
    else 0
  }

  /** The nearest such closing tag: how far to go past it, or 0. */
  function PastCloseTag(t: Text, name: Text): nat {
    if t == [] then 0
    else if CloseTagLength(t, name) > 0 then CloseTagLength(t, name)
    else if PastCloseTag(t[1..], name) == 0 then 0 else 1 + PastCloseTag(t[1..], name)
  }

  /** `<(script|style)\b[^>]*>[\s\S]*?<\/\1\s*>`, without regard to case, for a space. */
  function HiddenBlockAt(t: Text): Match {
    if t == [] || t[0] != LT then Miss
    else
      var length := if StartsWithName(t[1..], SCRIPT) then |SCRIPT| else if StartsWithName(t[1..], STYLE) then |STYLE| else 0;
      if length == 0 || (1 + length < |t| && IsWord(t[1 + length])) then Miss
      else
        var open := PastGt(t[1 + length..]);
        if open == 0 || 1 + length + open > |t| then Miss
        else
          var close := PastCloseTag(t[1 + length + open..], t[1..1 + length]);
          if close == 0 then Miss else Hit(1 + length + open + close, [SPACE])
  }

  const BREAKS_THE_LINE := {
    "p", "div", "br", "hr", "li", "ul", "ol", "dl", "dt", "dd", "tr", "td", "th", "table", "thead", "tbody",
    "h1", "h2", "h3", "h4", "h5", "h6", "blockquote", "pre", "section", "article", "header", "footer", "figure", "figcaption"
  }

  /** `<\/?([a-z][a-z0-9]*)\b[^>]*>`, without regard to case: a space, or nothing. */
  function TagAt(t: Text): Match {
    if t == [] || t[0] != LT then Miss
    else
      var start := if 1 < |t| && t[1] == SLASH then 2 else 1;
      if start >= |t| || !IsLetter(t[start]) then Miss
      else
        var end := start + RunOf(t[start..], IsAlphanumeric);
        if end < |t| && IsWord(t[end]) then Miss
        else
          var past := PastGt(t[end..]);
          if past == 0 then Miss
          else Hit(end + past, if Spelled(Lower(t[start..end])) in BREAKS_THE_LINE then [SPACE] else [])
  }

  /** `String.fromCodePoint`, where the number is one: two code units above U+FFFF. */
  function CodePoint(value: nat): Option<Text> {
    if value > 0x10_FFFF then None
    else if value < 0x1_0000 then Some([value])
    else Some([0xD800 + (value - 0x1_0000) / 0x400, 0xDC00 + (value - 0x1_0000) % 0x400])
  }

  function DigitValue(u: CodeUnit): nat
    requires IsHexDigit(u)
  {
    if IsDigit(u) then u - 48 else LowerUnit(u) - 87
  }

  /** `Number.parseInt`, exact: past 0x10FFFF only the fact of being past it is ever used. */
  function ParseInt(t: Text, radix: nat): nat
    requires forall i :: 0 <= i < |t| ==> IsHexDigit(t[i])
  {
    if t == [] then 0 else ParseInt(t[..|t| - 1], radix) * radix + DigitValue(t[|t| - 1])
  }

  const OBJECT_CONSTRUCTOR: string := "function Object() { [native code] }"

  /** The table, and the one name of a letters-only property every object inherits. */
  const NAMED_CHARACTERS: map<string, Text> := map[
    "amp" := [AMP], "lt" := [LT], "gt" := [GT], "quot" := [QUOT], "apos" := [APOS], "nbsp" := [SPACE],
    "ndash" := [0x2013], "mdash" := [0x2014], "hellip" := [0x2026], "laquo" := [0xAB], "raquo" := [0xBB],
    "ldquo" := [0x201C], "rdquo" := [0x201D], "lsquo" := [0x2018], "rsquo" := [0x2019]
  ]

  function NamedCharacter(name: string): Option<Text> {
    if name in NAMED_CHARACTERS then Some(NAMED_CHARACTERS[name])
    else if name == "constructor" then Some(seq(|OBJECT_CONSTRUCTOR|, i requires 0 <= i < |OBJECT_CONSTRUCTOR| => UnitOf(OBJECT_CONSTRUCTOR[i])))
    else None
  }

  function UnitOf(c: char): CodeUnit { if c as int < 0x1_0000 then c as int else 0xFFFD }

  function Or(found: Option<Text>, whole: Text): Text { if found.Some? then found.value else whole }

  /** `&(#x[0-9a-f]+|#\d+|[a-z]+);`, without regard to case: the character, or as it was. */
  function EntityAt(t: Text): Match {
    if t == [] || t[0] != AMP then Miss
    else if |t| >= 3 && t[1] == HASH && LowerUnit(t[2]) == 120 then
      NumberAt(t, 3, RunOf(t[3..], IsHexDigit), 16)
    else if |t| >= 2 && t[1] == HASH then
      NumberAt(t, 2, RunOf(t[2..], IsDigit), 10)
    else
      var end := 1 + RunOf(t[1..], IsLetter);
      if end == 1 || end >= |t| || t[end] != SEMICOLON then Miss
      else Hit(end + 1, Or(NamedCharacter(Spelled(Lower(t[1..end]))), t[..end + 1]))
  }

  function NumberAt(t: Text, start: nat, digits: nat, radix: nat): Match
    requires start + digits <= |t| && forall i :: start <= i < start + digits ==> IsHexDigit(t[i])
  {
    var end := start + digits;
    if digits == 0 || end >= |t| || t[end] != SEMICOLON then Miss
    else Hit(end + 1, Or(CodePoint(ParseInt(t[start..end], radix)), t[..end + 1]))
  }

  /** `\s+`, for one space. */
  function SpacesAt(t: Text): Match {
    var n := RunOf(t, IsSpace);
    if n == 0 then Miss else Hit(n, [SPACE])
  }

  function PlainTextOf(html: Text): Text {
    var withoutHiddenBlocks := ReplaceAll(html, HiddenBlockAt);
    var withoutTags := ReplaceAll(withoutHiddenBlocks, TagAt);
    var decoded := ReplaceAll(withoutTags, EntityAt);
    Trim(ReplaceAll(decoded, SpacesAt), IsSpace)
  }

  // ---------------------------------------------------------------------------------------
  // The way out and back.

  lemma {:induction false} NothingToReplace(t: Text, at: Pattern)
    requires forall i :: 0 <= i < |t| ==> at(t[i..]) == Miss
    ensures ReplaceAll(t, at) == t
  {
    if t != [] {
      assert t[0..] == t;
      forall i | 0 <= i < |t[1..]| ensures at(t[1..][i..]) == Miss { assert t[1..][i..] == t[i + 1..]; }
      NothingToReplace(t[1..], at);
    }
  }

  /** Text with no `<` in it loses nothing to either pass over the markup. */
  lemma NoMarkup(t: Text)
    requires LT !in t
    ensures ReplaceAll(ReplaceAll(t, HiddenBlockAt), TagAt) == t
  {
    forall i | 0 <= i < |t| ensures HiddenBlockAt(t[i..]) == Miss && TagAt(t[i..]) == Miss { assert t[i..][0] == t[i]; }
    NothingToReplace(t, HiddenBlockAt);
    NothingToReplace(t, TagAt);
  }

  lemma {:induction false} EachIsInert(t: Text, u: CodeUnit)
    requires u == LT || u == GT || u == QUOT || u == APOS
    ensures u !in EachEscaped(t)
  {
    if t != [] {
      EachIsInert(t[1..], u);
      assert u !in EscapedUnit(t[0]);
    }
  }

  /** What goes into a page has no markup in it, and no quote to close an attribute with. */
  lemma EscapedIsInert(t: Text)
    ensures LT !in Escaped(t) && GT !in Escaped(t) && QUOT !in Escaped(t) && APOS !in Escaped(t)
  {
    EscapedIsOneSubstitution(t);
    EachIsInert(t, LT);
    EachIsInert(t, GT);
    EachIsInert(t, QUOT);
    EachIsInert(t, APOS);
  }

  lemma NamedEntity(t: Text, n: nat, name: string)
    requires n > 0 && n + 2 <= |t| && t[0] == AMP && t[n + 1] == SEMICOLON
    requires forall i :: 1 <= i <= n ==> 97 <= t[i] <= 122
    requires |name| == n && forall i :: 0 <= i < n ==> name[i] as int == t[i + 1]
    requires name in NAMED_CHARACTERS
    ensures EntityAt(t) == Hit(n + 2, NAMED_CHARACTERS[name])
  {
    RunIs(t[1..], IsLetter, n);
    assert Lower(t[1..n + 1]) == t[1..n + 1];
    assert Spelled(t[1..n + 1]) == name;
  }

  lemma NumberedApostrophe(rest: Text)
    ensures EntityAt(APOS_ENTITY + rest) == Hit(5, [APOS])
  {
    var t := APOS_ENTITY + rest;
    RunIs(t[2..], IsDigit, 2);
    assert t[2..4] == [51, 57] && [51, 57][..1] == [51];
    assert ParseInt([51], 10) == 3;
    assert ParseInt([51, 57], 10) == 39;
  }

  /** Each entity `escaped` writes is read as one match, and as the character it stands for. */
  lemma DecodesTo(u: CodeUnit, rest: Text)
    requires u == AMP || u == LT || u == GT || u == QUOT || u == APOS
    ensures EntityAt(EscapedUnit(u) + rest) == Hit(|EscapedUnit(u)|, [u])
  {
    var t := EscapedUnit(u) + rest;
    if u == APOS { NumberedApostrophe(rest); return; }
    var name := if u == AMP then "amp" else if u == LT then "lt" else if u == GT then "gt" else "quot";
    assert name in NAMED_CHARACTERS && NAMED_CHARACTERS[name] == [u];
    NamedEntity(t, |name|, name);
  }

  lemma {:induction false} DecodeUndoesEscape(t: Text)
    ensures ReplaceAll(EachEscaped(t), EntityAt) == t
  {
    if t != [] {
      var u, rest := t[0], EachEscaped(t[1..]);
      var whole := EscapedUnit(u) + rest;
      DecodeUndoesEscape(t[1..]);
      if u == AMP || u == LT || u == GT || u == QUOT || u == APOS {
        DecodesTo(u, rest);
        assert whole[|EscapedUnit(u)|..] == rest;
      } else {
        assert whole[1..] == rest;
      }
    }
  }

  /** No two texts are written into a page alike. */
  lemma EscapedIsInjective(a: Text, b: Text)
    requires Escaped(a) == Escaped(b)
    ensures a == b
  {
    EscapedIsOneSubstitution(a);
    EscapedIsOneSubstitution(b);
    DecodeUndoesEscape(a);
    DecodeUndoesEscape(b);
  }

  // ---------------------------------------------------------------------------------------
  // White space.

  function NotSpace(u: CodeUnit): bool { !IsSpace(u) }

  /** The longest stretches with no white space in them, in order. */
  function Words(t: Text): seq<Text>
    decreases |t|
  {
    if t == [] then []
    else if IsSpace(t[0]) then Words(t[1..])
    else
      var n := RunOf(t, NotSpace);
      assert n > 0;
      [t[..n]] + Words(t[n..])
  }

  function Joined(words: seq<Text>): Text {
    if words == [] then [] else if |words| == 1 then words[0] else words[0] + [SPACE] + Joined(words[1..])
  }

  predicate IsWordText(w: Text) { w != [] && forall i :: 0 <= i < |w| ==> !IsSpace(w[i]) }

  lemma {:induction false} WordsAreWords(t: Text)
    ensures forall w :: w in Words(t) ==> IsWordText(w)
    decreases |t|
  {
    if t != [] {
      if IsSpace(t[0]) { WordsAreWords(t[1..]); } else { WordsAreWords(t[RunOf(t, NotSpace)..]); }
    }
  }

  lemma {:induction false} SpacesHideNoWord(t: Text, n: nat)
    requires n <= |t| && forall i :: 0 <= i < n ==> IsSpace(t[i])
    ensures Words(t) == Words(t[n..])
  {
    if n > 0 {
      SpacesHideNoWord(t[1..], n - 1);
      assert t[1..][n - 1..] == t[n..];
    } else {
      assert t[0..] == t;
    }
  }

  lemma MissGoesOn(t: Text, at: Pattern)
    requires t != [] && at(t) == Miss
    ensures ReplaceAll(t, at) == [t[0]] + ReplaceAll(t[1..], at)
  {
  }

  lemma Regroup(a: Text, b: Text, c: Text)
    ensures a + (b + c) == a + b + c
  {
  }

  lemma {:induction false} WordIsKept(t: Text, n: nat)
    requires n <= |t| && forall i :: 0 <= i < n ==> !IsSpace(t[i])
    ensures ReplaceAll(t, SpacesAt) == t[..n] + ReplaceAll(t[n..], SpacesAt)
  {
    if n > 0 {
      var rest := t[1..];
      MissGoesOn(t, SpacesAt);
      WordIsKept(rest, n - 1);
      assert rest[n - 1..] == t[n..];
      assert t[..n] == [t[0]] + rest[..n - 1];
      Regroup([t[0]], rest[..n - 1], ReplaceAll(t[n..], SpacesAt));
    } else {
      assert t[0..] == t;
    }
  }

  /** One space where the text begins with white space, and one where it ends with some. */
  function Lead(t: Text): Text { if t != [] && IsSpace(t[0]) then [SPACE] else [] }

  function Tail(t: Text): Text { if Words(t) != [] && t != [] && IsSpace(t[|t| - 1]) then [SPACE] else [] }

  lemma {:induction false} CollapsedIs(t: Text)
    ensures ReplaceAll(t, SpacesAt) == Lead(t) + Joined(Words(t)) + Tail(t)
    decreases |t|
  {
    if t == [] {
      return;
    }
    if IsSpace(t[0]) {
      var n := RunOf(t, IsSpace);
      assert ReplaceAll(t, SpacesAt) == [SPACE] + ReplaceAll(t[n..], SpacesAt);
      CollapsedIs(t[n..]);
      SpacesThenRest(t, n);
    } else {
      var n := RunOf(t, NotSpace);
      WordIsKept(t, n);
      CollapsedIs(t[n..]);
      WordThenRest(t, n);
    }
  }

  lemma SpacesThenRest(t: Text, n: nat)
    requires t != [] && IsSpace(t[0]) && n == RunOf(t, IsSpace)
    ensures [SPACE] + (Lead(t[n..]) + Joined(Words(t[n..])) + Tail(t[n..])) == Lead(t) + Joined(Words(t)) + Tail(t)
  {
    var rest := t[n..];
    SpacesHideNoWord(t, n);
    TailOfRest(t, n);
    assert Lead(rest) == [] && Lead(t) == [SPACE];
    assert [] + Joined(Words(rest)) == Joined(Words(rest));
    Regroup([SPACE], Joined(Words(rest)), Tail(rest));
  }

  lemma TailOfRest(t: Text, n: nat)
    requires n <= |t| && (Words(t) == [] <==> Words(t[n..]) == [])
    ensures Tail(t) == Tail(t[n..])
  {
    if n < |t| { assert t[n..][|t| - n - 1] == t[|t| - 1]; }
  }

  lemma WordThenRest(t: Text, n: nat)
    requires t != [] && !IsSpace(t[0]) && n == RunOf(t, NotSpace)
    ensures t[..n] + (Lead(t[n..]) + Joined(Words(t[n..])) + Tail(t[n..])) == Lead(t) + Joined(Words(t)) + Tail(t)
  {
    var w, rest := t[..n], t[n..];
    var more := Words(rest);
    assert Words(t) == [w] + more;
    JoinedMore(w, more);
    if rest == [] {
      LastWordEndsIt(t, n);
    } else if more == [] {
      SpaceEndsIt(t, n);
    } else {
      TailOfRest(t, n);
    }
    Glue(w, Lead(rest), Joined(more), Tail(rest), Tail(t), more == []);
    assert [] + Joined(Words(t)) == Joined(Words(t));
  }

  lemma LastWordEndsIt(t: Text, n: nat)
    requires t != [] && n == RunOf(t, NotSpace) && n == |t|
    ensures Tail(t) == []
  {
    assert NotSpace(t[n - 1]);
  }

  lemma SpaceEndsIt(t: Text, n: nat)
    requires n < |t| && Words(t[n..]) == [] && Words(t) != []
    ensures Tail(t) == [SPACE]
  {
    AllSpace(t[n..]);
    assert t[n..][|t| - n - 1] == t[|t| - 1];
  }

  lemma Glue(w: Text, lead: Text, joined: Text, tail: Text, end: Text, last: bool)
    requires if last then joined == [] && tail == [] && lead == end else lead == [SPACE] && tail == end
    ensures w + (lead + joined + tail) == (if last then w else w + [SPACE] + joined) + end
  {
  }

  lemma JoinedMore(w: Text, more: seq<Text>)
    ensures Joined([w] + more) == if more == [] then w else w + [SPACE] + Joined(more)
  {
    assert ([w] + more)[1..] == more;
  }

  lemma {:induction false} AllSpace(t: Text)
    requires Words(t) == []
    ensures forall i :: 0 <= i < |t| ==> IsSpace(t[i])
  {
    if t != [] { AllSpace(t[1..]); }
  }

  lemma {:induction false} JoinedEnds(words: seq<Text>)
    requires words != [] && forall w :: w in words ==> IsWordText(w)
    ensures var j := Joined(words); j != [] && !IsSpace(j[0]) && !IsSpace(j[|j| - 1])
  {
    assert words[0] in words;
    if |words| > 1 { JoinedEnds(words[1..]); }
  }

  lemma TrimmedRight(middle: Text, tail: Text)
    requires tail == [] || tail == [SPACE]
    requires middle == [] || !IsSpace(middle[|middle| - 1])
    ensures TrimRight(middle + tail, IsSpace) == middle
  {
    assert TrimRight(middle, IsSpace) == middle;
    if tail == [] {
      assert middle + tail == middle;
    } else {
      assert (middle + tail)[..|middle|] == middle;
    }
  }

  lemma TrimmedIs(lead: Text, middle: Text, tail: Text)
    requires lead == [] || lead == [SPACE]
    requires tail == [] || tail == [SPACE]
    requires if middle == [] then tail == [] else !IsSpace(middle[0]) && !IsSpace(middle[|middle| - 1])
    ensures Trim(lead + middle + tail, IsSpace) == middle
  {
    var all := lead + middle + tail;
    RunIs(all, IsSpace, |lead|);
    assert all[|lead|..] == middle + tail;
    TrimmedRight(middle, tail);
  }

  /** Collapsing and trimming white space leaves the words, one space between each two. */
  lemma NormalisedIsItsWords(t: Text)
    ensures Trim(ReplaceAll(t, SpacesAt), IsSpace) == Joined(Words(t))
  {
    CollapsedIs(t);
    WordsAreWords(t);
    if Words(t) != [] { JoinedEnds(Words(t)); }
    TrimmedIs(Lead(t), Joined(Words(t)), Tail(t));
  }

  /** The way out of a page undoes the way in, for every text there is, up to white space. */
  lemma PlainTextUndoesEscaped(t: Text)
    ensures PlainTextOf(Escaped(t)) == Joined(Words(t))
  {
    EscapedIsInert(t);
    NoMarkup(Escaped(t));
    EscapedIsOneSubstitution(t);
    DecodeUndoesEscape(t);
    NormalisedIsItsWords(t);
  }
}
