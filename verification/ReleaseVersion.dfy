/** Release tags, their precedence, and the mutable image aliases they may take over. */
module ReleaseVersion {
  import opened Sequences
  import opened Decimals

  // ---- text ---------------------------------------------------------------------------------------------

  /** White space as the tag check understands it. */
  predicate IsSpace(c: char) {
    var n := c as int;
    9 <= n <= 13 || n == 32 || n == 0xa0 || n == 0x1680 || 0x2000 <= n <= 0x200a || n == 0x2028 || n == 0x2029 ||
      n == 0x202f ||
    n == 0x205f || n == 0x3000 || n == 0xfeff
  }

  function FirstIndex(s: string, c: char): (at: nat)
    ensures at <= |s| && (forall i :: 0 <= i < at ==> s[i] != c) && (at < |s| ==> s[at] == c)
  {
    if s == [] || s[0] == c then 0 else 1 + FirstIndex(s[1..], c)
  }

  /** The pieces between the separators; always at least one. */
  function Split(s: string, sep: char): (parts: seq<string>)
    ensures parts != []
    decreases |s|
  {
    var at := FirstIndex(s, sep);
    if at == |s| then [s] else [s[..at]] + Split(s[at + 1..], sep)
  }

  function Join(parts: seq<string>, sep: char): string
    requires parts != []
  {
    if |parts| == 1 then parts[0] else parts[0] + [sep] + Join(parts[1..], sep)
  }

  lemma {:induction false} JoinSplit(s: string, sep: char)
    ensures Join(Split(s, sep), sep) == s
    decreases |s|
  {
    var at := FirstIndex(s, sep);
    if at < |s| {
      JoinSplit(s[at + 1..], sep);
      assert Split(s, sep)[1..] == Split(s[at + 1..], sep);
      assert s == s[..at] + [sep] + s[at + 1..];
    }
  }

  // ---- parsing ------------------------------------------------------------------------------------------

  datatype Release = Release(tag: string, version: string, core: string, major: nat, minor: nat, patch: nat,
    prerelease: Option<string>)

  predicate IsStable(r: Release) { r.prerelease.None? }

  datatype Reason =
    | EmptyTag | Whitespace | RefLike | NoLowercaseV | BuildMetadata | NotAVersion | LeadingZero(component: string)
    | EmptyPrerelease | EmptyIdentifier | IllegalCharacter(identifier: string) | NumericLeadingZero(identifier: string)

  datatype Verdict = Ok(release: Release) | Rejected(reason: Reason)

  predicate IsIdentifierChar(c: char) { IsDigit(c) || 'A' <= c <= 'Z' || 'a' <= c <= 'z' || c == '-' }

  predicate WellFormedIdentifier(s: string) {
    s != [] && (forall c :: c in s ==> IsIdentifierChar(c)) && !(AllDigits(s) && HasLeadingZero(s))
  }

  /** The first thing wrong with a list of prerelease identifiers, if anything. */
  function IdentifierProblem(identifiers: seq<string>): (problem: Option<Reason>)
    ensures problem.None? <==> forall i :: i in identifiers ==> WellFormedIdentifier(i)
  {
    if identifiers == [] then None else
    assert identifiers[0] in identifiers;
    if identifiers[0] == "" then Some(EmptyIdentifier)
    else if exists c :: c in identifiers[0] && !IsIdentifierChar(c) then Some(IllegalCharacter(identifiers[0]))
    else if AllDigits(identifiers[0]) && HasLeadingZero(identifiers[0]) then Some(NumericLeadingZero(identifiers[0]))
    else
      assert identifiers == [identifiers[0]] + identifiers[1..];
      IdentifierProblem(identifiers[1..])
  }

  function ParseReleaseTag(raw: string): Verdict {
    if raw == "" then Rejected(EmptyTag)
    else if exists c :: c in raw && IsSpace(c) then Rejected(Whitespace)
    else if '/' in raw then Rejected(RefLike)
    else if raw[0] != 'v' then Rejected(NoLowercaseV)
    else if '+' in raw[1..] then Rejected(BuildMetadata)
    else ParseBody(raw, raw[1..])
  }

  function CoreOf(body: string): string { body[..FirstIndex(body, '-')] }

  function PrereleaseOf(body: string): Option<string> {
    var dash := FirstIndex(body, '-');
    if dash == |body| then None else Some(body[dash + 1..])
  }

  function ParseBody(raw: string, body: string): Verdict {
    var core, prerelease := CoreOf(body), PrereleaseOf(body);
    var parts := Split(core, '.');
    if |parts| != 3 || !AllDigits(parts[0]) || !AllDigits(parts[1]) || !AllDigits(parts[2]) then Rejected(NotAVersion)
    else if HasLeadingZero(parts[0]) then Rejected(LeadingZero(parts[0]))
    else if HasLeadingZero(parts[1]) then Rejected(LeadingZero(parts[1]))
    else if HasLeadingZero(parts[2]) then Rejected(LeadingZero(parts[2]))
    else if prerelease == Some("") then Rejected(EmptyPrerelease)
    else
      var problem := if prerelease.Some? then IdentifierProblem(Split(prerelease.value, '.')) else None;
      if problem.Some? then Rejected(problem.value)
      else Ok(Release(raw, body, core, NumberOf(parts[0]), NumberOf(parts[1]), NumberOf(parts[2]), prerelease))
  }

  function ParseVersion(text: string): Option<Release> {
    var verdict := ParseReleaseTag("v" + text);
    if verdict.Ok? then Some(verdict.release) else None
  }

  /** A release the parser accepted. */
  predicate Accepted(r: Release) { ParseReleaseTag(r.tag) == Ok(r) }

  lemma AcceptedBody(r: Release)
    requires Accepted(r)
    ensures r.tag == "v" + r.version && ParseBody(r.tag, r.version) == Ok(r)
  {
    hide IdentifierProblem, Split, NumberOf;
    assert r.tag == "v" + r.tag[1..];
  }

  /** The version text of an accepted release leads back to it. */
  lemma {:induction false} AcceptedReparses(r: Release)
    requires Accepted(r)
    ensures ParseVersion(r.version) == Some(r)
  {
    AcceptedBody(r);
    hide ParseReleaseTag, ParseBody;
  }

  lemma BodyParts(body: string)
    ensures body == CoreOf(body) + if PrereleaseOf(body).Some? then "-" + PrereleaseOf(body).value else ""
  {
    var dash := FirstIndex(body, '-');
    assert body == body[..dash] + body[dash..];
    assert dash < |body| ==> body[dash..] == "-" + body[dash + 1..];
    hide FirstIndex;
  }

  lemma JoinThree(parts: seq<string>, sep: char)
    requires |parts| == 3
    ensures Join(parts, sep) == parts[0] + [sep] + (parts[1] + [sep] + parts[2])
  {
    var rest := parts[1..];
    assert rest[1..] == [parts[2]] && Join(rest[1..], sep) == parts[2];
    assert Join(rest, sep) == parts[1] + [sep] + parts[2];
  }

  /** A version component: digits without a superfluous zero. */
  predicate Component(p: string) { AllDigits(p) && !HasLeadingZero(p) }

  lemma BodyAccepted(raw: string, body: string)
    requires ParseBody(raw, body).Ok?
    ensures var r, parts := ParseBody(raw, body).release, Split(CoreOf(body), '.');
      && r.core == CoreOf(body) && r.prerelease == PrereleaseOf(body)
      && |parts| == 3 && Component(parts[0]) && Component(parts[1]) && Component(parts[2])
      && r.major == NumberOf(parts[0]) && r.minor == NumberOf(parts[1]) && r.patch == NumberOf(parts[2])
      && (r.prerelease.Some? ==> forall i :: i in Split(r.prerelease.value, '.') ==> WellFormedIdentifier(i))
  {
    hide Split, NumberOf, CoreOf, PrereleaseOf, HasLeadingZero, WellFormedIdentifier;
  }

  /** What an accepted release is made of. */
  lemma {:induction false} AcceptedParts(r: Release)
    requires Accepted(r)
    ensures r.version == r.core + if r.prerelease.Some? then "-" + r.prerelease.value else ""
    ensures var parts := Split(r.core, '.');
      && |parts| == 3 && r.core == parts[0] + "." + (parts[1] + "." + parts[2])
      && Component(parts[0]) && Component(parts[1]) && Component(parts[2])
      && r.major == NumberOf(parts[0]) && r.minor == NumberOf(parts[1]) && r.patch == NumberOf(parts[2])
    ensures r.prerelease.Some? ==> forall i :: i in Split(r.prerelease.value, '.') ==> WellFormedIdentifier(i)
  {
    AcceptedBody(r);
    BodyAccepted(r.tag, r.version);
    BodyParts(r.version);
    hide *;
    JoinSplit(r.core, '.');
    JoinThree(Split(r.core, '.'), '.');
  }

  // ---- exactly which tags are accepted ------------------------------------------------------------------

  lemma FirstIndexIs(a: string, c: char, rest: string)
    requires c !in a && (rest == "" || rest[0] == c)
    ensures FirstIndex(a + rest, c) == |a|
  {
    var s := a + rest;
    var at := FirstIndex(s, c);
    assert forall i :: 0 <= i < |a| ==> s[i] == a[i] && a[i] in a;
    if rest != "" { assert s[|a|] == c; }
  }

  lemma SplitOnce(a: string, sep: char, rest: string)
    requires sep !in a
    ensures Split(a, sep) == [a] && Split(a + [sep] + rest, sep) == [a] + Split(rest, sep)
  {
    FirstIndexIs(a, sep, "");
    FirstIndexIs(a, sep, [sep] + rest);
    hide FirstIndex;
    var s := a + [sep] + rest;
    assert a + "" == a && a + ([sep] + rest) == s;
    assert s[..|a|] == a && s[|a| + 1..] == rest;
  }

  lemma {:induction false} SplitJoin(parts: seq<string>, sep: char)
    requires parts != [] && forall p :: p in parts ==> sep !in p
    ensures Split(Join(parts, sep), sep) == parts
  {
    hide Split;
    if |parts| == 1 {
      SplitOnce(parts[0], sep, "");
    } else {
      SplitOnce(parts[0], sep, Join(parts[1..], sep));
      SplitJoin(parts[1..], sep);
    }
  }

  lemma {:induction false} JoinedChars(parts: seq<string>, sep: char, c: char)
    requires parts != []
    ensures c in Join(parts, sep) ==> c == sep || exists p :: p in parts && c in p
    ensures parts[0] != "" ==> Join(parts, sep) != ""
  {
    if |parts| > 1 {
      JoinedChars(parts[1..], sep, c);
      assert parts[0] in parts && forall p :: p in parts[1..] ==> p in parts;
    }
  }

  /** Three numbers and, after a dash, identifiers between dots. */
  function VersionText(core: seq<string>, identifiers: seq<string>): string
    requires core != []
  {
    Join(core, '.') + if identifiers == [] then "" else "-" + Join(identifiers, '.')
  }

  ghost predicate WellFormedVersion(core: seq<string>, identifiers: seq<string>) {
    && |core| == 3 && (forall p :: p in core ==> Component(p))
    && (forall i :: i in identifiers ==> WellFormedIdentifier(i))
  }

  lemma VersionChars(core: seq<string>, identifiers: seq<string>, c: char)
    requires WellFormedVersion(core, identifiers)
    ensures c in Join(core, '.') ==> IsDigit(c) || c == '.'
    ensures c in VersionText(core, identifiers) ==> IsIdentifierChar(c) || c == '.'
  {
    JoinedChars(core, '.', c);
    if identifiers != [] { JoinedChars(identifiers, '.', c); }
    hide Join, HasLeadingZero;
  }

  lemma NoDash(core: seq<string>)
    requires WellFormedVersion(core, [])
    ensures '-' !in Join(core, '.') && forall p :: p in core ==> '.' !in p
  {
    VersionChars(core, [], '-');
    forall p | p in core ensures '.' !in p { assert Component(p); }
  }

  lemma CoreBefore(core: seq<string>, rest: string)
    requires WellFormedVersion(core, []) && (rest == "" || rest[0] == '-')
    ensures var body := Join(core, '.') + rest;
      && CoreOf(body) == Join(core, '.') && Split(CoreOf(body), '.') == core
      && PrereleaseOf(body) == (if rest == "" then None else Some(rest[1..]))
  {
    hide Join, Split, Component, FirstIndex;
    var numbers := Join(core, '.');
    NoDash(core);
    SplitJoin(core, '.');
    FirstIndexIs(numbers, '-', rest);
    var body := numbers + rest;
    assert body[..|numbers|] == numbers;
    if rest != "" { assert body[|numbers| + 1..] == rest[1..]; }
  }

  lemma IdentifiersAfter(identifiers: seq<string>)
    requires identifiers != [] && forall i :: i in identifiers ==> WellFormedIdentifier(i)
    ensures Join(identifiers, '.') != "" && Split(Join(identifiers, '.'), '.') == identifiers
  {
    forall i | i in identifiers ensures '.' !in i { assert WellFormedIdentifier(i); }
    SplitJoin(identifiers, '.');
    JoinedChars(identifiers, '.', '.');
    assert identifiers[0] in identifiers;
  }

  /** A tag is accepted exactly when it is a lower-case v and three numbers, perhaps with well-formed identifiers. */
  lemma AcceptedExactly(raw: string)
    ensures ParseReleaseTag(raw).Ok? <==>
      exists core, identifiers :: WellFormedVersion(core, identifiers) && raw == "v" + VersionText(core, identifiers)
  {
    if ParseReleaseTag(raw).Ok? { AcceptedIsWellFormed(raw); }
    if core, identifiers :| WellFormedVersion(core, identifiers) && raw == "v" + VersionText(core, identifiers) {
      WellFormedIsAccepted(core, identifiers);
    }
    hide ParseReleaseTag, VersionText, WellFormedVersion;
  }

  lemma TagOf(raw: string)
    requires ParseReleaseTag(raw).Ok?
    ensures Accepted(ParseReleaseTag(raw).release) && ParseReleaseTag(raw).release.tag == raw
  {
    hide Split, IdentifierProblem, NumberOf, CoreOf, PrereleaseOf;
  }

  lemma ThreeParts(core: seq<string>)
    requires |core| == 3 && Component(core[0]) && Component(core[1]) && Component(core[2])
    ensures WellFormedVersion(core, [])
  {
    assert core == [core[0], core[1], core[2]];
    hide Component;
  }

  lemma AcceptedIsWellFormed(raw: string)
    requires ParseReleaseTag(raw).Ok?
    ensures exists core, identifiers ::
      WellFormedVersion(core, identifiers) && raw == "v" + VersionText(core, identifiers)
  {
    var r := ParseReleaseTag(raw).release;
    TagOf(raw);
    AcceptedBody(r);
    AcceptedParts(r);
    hide Split, Join, Component, WellFormedIdentifier, ParseReleaseTag, ParseBody, Accepted, NumberOf, HasLeadingZero;
    var core, identifiers := Split(r.core, '.'), if r.prerelease.Some? then Split(r.prerelease.value, '.') else [];
    JoinSplit(r.core, '.');
    if r.prerelease.Some? { JoinSplit(r.prerelease.value, '.'); }
    ThreeParts(core);
    assert VersionText(core, identifiers) == r.version;
    assert WellFormedVersion(core, identifiers);
  }

  lemma CleanTag(body: string)
    requires forall c :: c in body ==> IsIdentifierChar(c) || c == '.'
    ensures ParseReleaseTag("v" + body) == ParseBody("v" + body, body)
  {
    var raw := "v" + body;
    assert raw[1..] == body && raw[0] == 'v' && forall c :: c in raw ==> c == 'v' || c in body;
    hide ParseBody;
  }

  lemma BodyIsAccepted(raw: string, body: string, core: seq<string>, identifiers: seq<string>)
    requires WellFormedVersion(core, identifiers) && Split(CoreOf(body), '.') == core
    requires PrereleaseOf(body) == (if identifiers == [] then None else Some(Join(identifiers, '.')))
    requires identifiers != [] ==>
      Join(identifiers, '.') != "" && Split(Join(identifiers, '.'), '.') == identifiers
    ensures ParseBody(raw, body).Ok?
  {
    hide Join, Split, CoreOf, PrereleaseOf, WellFormedIdentifier, NumberOf, IdentifierProblem;
    assert core[0] in core && core[1] in core && core[2] in core;
  }

  lemma WellFormedIsAccepted(core: seq<string>, identifiers: seq<string>)
    requires WellFormedVersion(core, identifiers)
    ensures ParseReleaseTag("v" + VersionText(core, identifiers)).Ok?
  {
    var body, rest := VersionText(core, identifiers), if identifiers == [] then "" else "-" + Join(identifiers, '.');
    assert body == Join(core, '.') + rest;
    assert rest != "" ==> rest[1..] == Join(identifiers, '.');
    hide VersionText, Join, Split, CoreOf, PrereleaseOf, WellFormedIdentifier, ParseReleaseTag, IsIdentifierChar,
      ParseBody, Component;
    forall c | c in body ensures IsIdentifierChar(c) || c == '.' { VersionChars(core, identifiers, c); }
    CleanTag(body);
    CoreBefore(core, rest);
    if identifiers != [] { IdentifiersAfter(identifiers); }
    BodyIsAccepted("v" + body, body, core, identifiers);
  }

  // ---- precedence ---------------------------------------------------------------------------------------

  function CompareNumbers(a: int, b: int): int { if a < b then -1 else if a > b then 1 else 0 }

  /** Text order by the first character that differs. */
  function CompareText(a: string, b: string): int {
    if a == [] && b == [] then 0
    else if a == [] then -1
    else if b == [] then 1
    else if a[0] != b[0] then (if a[0] < b[0] then -1 else 1)
    else CompareText(a[1..], b[1..])
  }

  function CompareIdentifier(l: string, r: string): int
    requires l != r
  {
    if AllDigits(l) && AllDigits(r) then (if NumberOf(l) < NumberOf(r) then -1 else 1)
    else if AllDigits(l) != AllDigits(r) then (if AllDigits(l) then -1 else 1)
    else if CompareText(l, r) < 0 then -1 else 1
  }

  function CompareIdentifiers(left: seq<string>, right: seq<string>, index: nat): int
    decreases Max(|left|, |right|) - index
  {
    if index >= Max(|left|, |right|) then 0
    else if index >= |left| then -1
    else if index >= |right| then 1
    else if left[index] == right[index] then CompareIdentifiers(left, right, index + 1)
    else CompareIdentifier(left[index], right[index])
  }

  function CompareVersions(a: Release, b: Release): int {
    if a.major != b.major then CompareNumbers(a.major, b.major)
    else if a.minor != b.minor then CompareNumbers(a.minor, b.minor)
    else if a.patch != b.patch then CompareNumbers(a.patch, b.patch)
    else if a.prerelease.None? && b.prerelease.None? then 0
    else if a.prerelease.None? then 1
    else if b.prerelease.None? then -1
    else CompareIdentifiers(Split(a.prerelease.value, '.'), Split(b.prerelease.value, '.'), 0)
  }

  // Section 11 of SemVer 2.0.0, written from the standard.

  /** Lexical order: a proper prefix, or a smaller character at the first difference. */
  ghost predicate TextPrecedes(a: string, b: string) {
    exists k: nat :: k <= |a| && k < |b| && a[..k] == b[..k] && (k == |a| || a[k] < b[k])
  }

  /** 11.4.1 to 11.4.3: numeric identifiers numerically, below the others, which compare lexically. */
  ghost predicate IdentifierPrecedes(a: string, b: string) {
    if AllDigits(a) && AllDigits(b) then NumberOf(a) < NumberOf(b)
    else if AllDigits(a) || AllDigits(b) then AllDigits(a)
    else TextPrecedes(a, b)
  }

  /** 11.4: the first different identifier decides; 11.4.4: otherwise the longer list is higher. */
  ghost predicate PrereleasePrecedes(a: seq<string>, b: seq<string>) {
    exists k: nat :: k <= |a| && k < |b| && a[..k] == b[..k] &&
      (k == |a| || (a[k] != b[k] && IdentifierPrecedes(a[k], b[k])))
  }

  ghost predicate CorePrecedes(a: Release, b: Release) {
    a.major < b.major || (a.major == b.major && (a.minor < b.minor || (a.minor == b.minor && a.patch < b.patch)))
  }

  ghost predicate SameCore(a: Release, b: Release) { a.major == b.major && a.minor == b.minor && a.patch == b.patch }

  /** 11.2 and 11.3: the core numbers first; then a prerelease is lower than the version it leads to. */
  ghost predicate Precedes(a: Release, b: Release) {
    CorePrecedes(a, b) ||
    (SameCore(a, b) && a.prerelease.Some? &&
      (b.prerelease.None? || PrereleasePrecedes(Split(a.prerelease.value, '.'), Split(b.prerelease.value, '.'))))
  }

  lemma SamePrefix<T>(a: seq<T>, b: seq<T>, k: nat)
    requires k <= |a| && k <= |b| && a[..k] == b[..k]
    ensures forall j :: 0 <= j < k ==> a[j] == b[j]
  {
    forall j | 0 <= j < k ensures a[j] == b[j] { assert a[j] == a[..k][j] && b[j] == b[..k][j]; }
  }

  lemma TailPrecedes(a: string, b: string)
    requires a != [] && b != [] && a[0] == b[0]
    ensures TextPrecedes(a, b) <==> TextPrecedes(a[1..], b[1..])
  {
    if TextPrecedes(a, b) {
      var k: nat :| k <= |a| && k < |b| && a[..k] == b[..k] && (k == |a| || a[k] < b[k]);
      SamePrefix(a, b, k);
      assert k > 0 && a[1..][..k - 1] == b[1..][..k - 1];
    }
    if TextPrecedes(a[1..], b[1..]) {
      var k: nat :| k <= |a| - 1 && k < |b| - 1 && a[1..][..k] == b[1..][..k] &&
        (k == |a| - 1 || a[1..][k] < b[1..][k]);
      SamePrefix(a[1..], b[1..], k);
      assert a[..k + 1] == b[..k + 1];
      assert k + 1 == |a| || a[k + 1] < b[k + 1];
    }
  }

  lemma HeadPrecedes(a: string, b: string)
    requires a == [] || b == [] || a[0] != b[0]
    ensures TextPrecedes(a, b) <==> b != [] && (a == [] || a[0] < b[0])
  {
    assert a[..0] == b[..0];
    if TextPrecedes(a, b) {
      var k: nat :| k <= |a| && k < |b| && a[..k] == b[..k] && (k == |a| || a[k] < b[k]);
      SamePrefix(a, b, k);
    }
  }

  lemma {:induction false} TextCompares(a: string, b: string)
    ensures CompareText(a, b) < 0 <==> TextPrecedes(a, b)
    ensures CompareText(a, b) == 0 <==> a == b
    ensures CompareText(a, b) == -CompareText(b, a)
  {
    if a != [] && b != [] && a[0] == b[0] {
      TextCompares(a[1..], b[1..]);
      TailPrecedes(a, b);
      assert a == [a[0]] + a[1..] && b == [b[0]] + b[1..];
    } else {
      HeadPrecedes(a, b);
    }
    hide TextPrecedes;
  }

  /** Well-formed identifiers that are not the same text are strictly ordered, as the standard says. */
  lemma {:induction false} IdentifiersCompare(a: string, b: string)
    requires WellFormedIdentifier(a) && WellFormedIdentifier(b) && a != b
    ensures CompareIdentifier(a, b) == -1 || CompareIdentifier(a, b) == 1
    ensures CompareIdentifier(a, b) < 0 <==> IdentifierPrecedes(a, b)
    ensures CompareIdentifier(a, b) == -CompareIdentifier(b, a)
  {
    TextCompares(a, b);
    if AllDigits(a) && AllDigits(b) && NumberOf(a) == NumberOf(b) { NumberOfInjective(a, b); }
    hide TextPrecedes, CompareText, NumberOf;
  }

  ghost predicate WellFormed(ids: seq<string>) { forall i :: i in ids ==> WellFormedIdentifier(i) }

  lemma {:induction false} ListsCompare(a: seq<string>, b: seq<string>, index: nat)
    requires WellFormed(a) && WellFormed(b) && index <= |a| && index <= |b| && a[..index] == b[..index]
    ensures CompareIdentifiers(a, b, index) < 0 <==> PrereleasePrecedes(a, b)
    ensures CompareIdentifiers(a, b, index) == 0 <==> a == b
    ensures CompareIdentifiers(a, b, index) == -CompareIdentifiers(b, a, index)
    decreases Max(|a|, |b|) - index
  {
    hide IdentifierPrecedes, CompareIdentifier, WellFormedIdentifier;
    if index < |a| && index < |b| && a[index] == b[index] {
      assert a[..index + 1] == a[..index] + [a[index]] && b[..index + 1] == b[..index] + [b[index]];
      ListsCompare(a, b, index + 1);
    } else {
      if index < |a| && index < |b| {
        IdentifiersCompare(a[index], b[index]);
      }
      FirstDifferenceDecides(a, b, index);
      assert a[..|a|] == a && b[..|b|] == b;
    }
  }

  lemma FirstDifferenceDecides(a: seq<string>, b: seq<string>, index: nat)
    requires index <= |a| && index <= |b| && a[..index] == b[..index]
    requires index == |a| || index == |b| || a[index] != b[index]
    ensures PrereleasePrecedes(a, b) <==> index < |b| && (index == |a| || IdentifierPrecedes(a[index], b[index]))
  {
    hide IdentifierPrecedes;
    SamePrefix(a, b, index);
    if PrereleasePrecedes(a, b) {
      var k: nat :| k <= |a| && k < |b| && a[..k] == b[..k] &&
        (k == |a| || (a[k] != b[k] && IdentifierPrecedes(a[k], b[k])));
      SamePrefix(a, b, k);
      assert k == index;
    }
  }

  lemma {:induction false} SplitInjective(a: string, b: string, sep: char)
    requires Split(a, sep) == Split(b, sep)
    ensures a == b
  {
    JoinSplit(a, sep);
    JoinSplit(b, sep);
  }

  lemma SameCoreText(a: Release, b: Release)
    requires Accepted(a) && Accepted(b)
    ensures SameCore(a, b) <==> a.core == b.core
  {
    AcceptedParts(a);
    AcceptedParts(b);
    hide Split, NumberOf, Accepted;
    var p, q := Split(a.core, '.'), Split(b.core, '.');
    if SameCore(a, b) {
      NumberOfInjective(p[0], q[0]);
      NumberOfInjective(p[1], q[1]);
      NumberOfInjective(p[2], q[2]);
    }
  }

  /** A core has no dash, so version texts agree just when cores and prereleases do. */
  lemma SameVersionText(a: Release, b: Release)
    requires Accepted(a) && Accepted(b)
    ensures a.version == b.version <==> a.core == b.core && a.prerelease == b.prerelease
  {
    AcceptedBody(a);
    AcceptedBody(b);
    BodyAccepted(a.tag, a.version);
    BodyAccepted(b.tag, b.version);
    AcceptedParts(a);
    AcceptedParts(b);
    hide *;
  }

  lemma PrereleasesCompare(a: Release, b: Release)
    requires Accepted(a) && Accepted(b) && a.prerelease.Some? && b.prerelease.Some?
    ensures var l, r := Split(a.prerelease.value, '.'), Split(b.prerelease.value, '.');
      && (CompareIdentifiers(l, r, 0) < 0 <==> PrereleasePrecedes(l, r))
      && (CompareIdentifiers(l, r, 0) == 0 <==> a.prerelease == b.prerelease)
      && CompareIdentifiers(l, r, 0) == -CompareIdentifiers(r, l, 0)
  {
    AcceptedParts(a);
    AcceptedParts(b);
    var l, r := Split(a.prerelease.value, '.'), Split(b.prerelease.value, '.');
    hide Accepted, Split, PrereleasePrecedes, CompareIdentifiers;
    assert l[..0] == r[..0];
    ListsCompare(l, r, 0);
    if l == r { SplitInjective(a.prerelease.value, b.prerelease.value, '.'); }
  }

  /** Comparison is antisymmetric, agrees with the precedence of the standard, and says "equal" for one text only. */
  lemma {:induction false} ComparesAsSemVer(a: Release, b: Release)
    requires Accepted(a) && Accepted(b)
    ensures CompareVersions(a, b) < 0 <==> Precedes(a, b)
    ensures CompareVersions(a, b) > 0 <==> Precedes(b, a)
    ensures CompareVersions(a, b) == 0 <==> a.version == b.version
    ensures CompareVersions(a, b) == -CompareVersions(b, a)
  {
    SameCoreText(a, b);
    SameVersionText(a, b);
    if a.prerelease.Some? && b.prerelease.Some? {
      PrereleasesCompare(a, b);
      PrereleasesCompare(b, a);
    }
    hide Accepted, Split, PrereleasePrecedes, CompareIdentifiers;
  }

  // ---- transitivity -------------------------------------------------------------------------------------

  lemma {:induction false} TextChain(a: string, b: string, c: string)
    requires CompareText(a, b) < 0 && CompareText(b, c) < 0
    ensures CompareText(a, c) < 0
  {
    if a != [] && a[0] == b[0] && b[0] == c[0] { TextChain(a[1..], b[1..], c[1..]); }
  }

  lemma IdentifierChain(a: string, b: string, c: string)
    requires a != b && b != c && CompareIdentifier(a, b) < 0 && CompareIdentifier(b, c) < 0
    requires WellFormedIdentifier(a) && WellFormedIdentifier(b) && WellFormedIdentifier(c)
    ensures a != c && CompareIdentifier(a, c) < 0
  {
    IdentifiersCompare(a, b);
    IdentifiersCompare(b, c);
    if CompareText(a, b) < 0 && CompareText(b, c) < 0 { TextChain(a, b, c); }
    hide CompareText, NumberOf, IdentifierPrecedes;
  }

  lemma {:induction false} ListChain(a: seq<string>, b: seq<string>, c: seq<string>, index: nat)
    requires WellFormed(a) && WellFormed(b) && WellFormed(c)
    requires CompareIdentifiers(a, b, index) < 0 && CompareIdentifiers(b, c, index) < 0
    ensures CompareIdentifiers(a, c, index) < 0
    decreases Max(|a|, Max(|b|, |c|)) - index
  {
    hide CompareIdentifier, WellFormedIdentifier;
    if index < |a| && index < |b| && index < |c| {
      if a[index] == b[index] && b[index] == c[index] {
        ListChain(a, b, c, index + 1);
      } else if a[index] != b[index] && b[index] != c[index] {
        IdentifierChain(a[index], b[index], c[index]);
      }
    }
  }

  /** Comparison is a total order on accepted releases: with the lemma above, any three are ordered consistently. */
  lemma {:induction false} ComparesTransitively(a: Release, b: Release, c: Release)
    requires Accepted(a) && Accepted(b) && Accepted(c)
    requires CompareVersions(a, b) <= 0 && CompareVersions(b, c) <= 0
    ensures CompareVersions(a, c) <= 0
    ensures CompareVersions(a, b) < 0 || CompareVersions(b, c) < 0 ==> CompareVersions(a, c) < 0
  {
    ComparesAsSemVer(a, b);
    ComparesAsSemVer(b, c);
    AcceptedReparses(a);
    AcceptedReparses(b);
    AcceptedReparses(c);
    if a.version == b.version {
      assert a == b;
    } else if b.version == c.version {
      assert b == c;
    } else {
      StrictChain(a, b, c);
    }
    hide Accepted, CompareVersions, ParseVersion;
  }

  lemma PrereleaseChain(a: string, b: string, c: string)
    requires WellFormed(Split(a, '.')) && WellFormed(Split(b, '.')) && WellFormed(Split(c, '.'))
    ensures
      CompareIdentifiers(Split(a, '.'), Split(b, '.'), 0) < 0 &&
      CompareIdentifiers(Split(b, '.'), Split(c, '.'), 0) < 0 ==>
      CompareIdentifiers(Split(a, '.'), Split(c, '.'), 0) < 0
  {
    hide *;
    var x, y, z := Split(a, '.'), Split(b, '.'), Split(c, '.');
    if CompareIdentifiers(x, y, 0) < 0 && CompareIdentifiers(y, z, 0) < 0 { ListChain(x, y, z, 0); }
  }

  lemma AcceptedIdentifiers(r: Release)
    requires Accepted(r) && r.prerelease.Some?
    ensures WellFormed(Split(r.prerelease.value, '.'))
  {
    AcceptedParts(r);
    hide Accepted, Split, WellFormedIdentifier;
  }

  lemma StrictChain(a: Release, b: Release, c: Release)
    requires Accepted(a) && Accepted(b) && Accepted(c) && CompareVersions(a, b) < 0 && CompareVersions(b, c) < 0
    ensures CompareVersions(a, c) < 0
  {
    hide Accepted, Split, CompareIdentifiers;
    if a.prerelease.Some? && b.prerelease.Some? && c.prerelease.Some? {
      AcceptedIdentifiers(a);
      AcceptedIdentifiers(b);
      AcceptedIdentifiers(c);
      PrereleaseChain(a.prerelease.value, b.prerelease.value, c.prerelease.value);
    }
  }

  // ---- aliases ------------------------------------------------------------------------------------------

  /** What an image alias serves: nothing yet, an image that does not say, or a version text. */
  datatype AliasState = Absent | Unlabelled | Serving(version: string)

  datatype Action = Move | Noop | Skip

  function PlanAliasMove(r: Release, state: AliasState): Action {
    match state
    case Absent => Move
    case Unlabelled => Skip
    case Serving(version) =>
      if version == "" then Skip
      else
        var current := ParseVersion(version);
        if current.None? then Skip
        else
          var order := CompareVersions(r, current.value);
          if order > 0 then Move else if order == 0 then Noop else Skip
  }

  /** Only a stable release earns aliases. */
  function AliasImageTags(r: Release): seq<string> {
    if IsStable(r) then [Decimal(r.major) + "." + Decimal(r.minor), "latest"] else []
  }

  function AfterRelease(alias: string, state: AliasState, r: Release): AliasState {
    if alias in AliasImageTags(r) && PlanAliasMove(r, state) == Move then Serving(r.version) else state
  }

  /** An alias after a run of releases, some of them possibly run again. */
  function AfterReleases(alias: string, releases: seq<Release>): AliasState {
    if releases == [] then Absent
    else AfterRelease(alias, AfterReleases(alias, releases[..|releases| - 1]), releases[|releases| - 1])
  }

  /** A stable release earns `latest`, and its version without the patch number. */
  ghost predicate Earns(alias: string, r: Release) {
    r.prerelease.None? &&
    (alias == "latest" || exists patch :: AllDigits(patch) && r.version == alias + "." + patch)
  }

  ghost predicate Earned(alias: string, releases: seq<Release>, r: Release) { r in releases && Earns(alias, r) }

  /** Where the last dot stands. */
  lemma DotStands(a: string, x: string)
    requires '.' !in x
    ensures var s := a + "." + x;
      s[..|a|] == a && s[|a|] == '.' && forall i :: |a| < i < |s| ==> s[i] != '.'
  {
    var s := a + "." + x;
    forall i | |a| < i < |s| ensures s[i] != '.' { assert s[i] == x[i - |a| - 1] && x[i - |a| - 1] in x; }
  }

  lemma LastDot(a: string, x: string, b: string, y: string)
    requires a + "." + x == b + "." + y && '.' !in x && '.' !in y
    ensures a == b
  {
    DotStands(a, x);
    DotStands(b, y);
    assert |a| == |b|;
  }

  lemma Dotted(a: string, b: string, c: string)
    ensures a + "." + (b + "." + c) + "" == (a + "." + b) + "." + c
  {
  }

  /** The aliases of a stable release, read off the parts of its version. */
  lemma AliasTags(r: Release, parts: seq<string>)
    requires Accepted(r) && r.prerelease.None? && parts == Split(r.core, '.')
    ensures |parts| == 3 && AllDigits(parts[2])
    ensures AliasImageTags(r) == [parts[0] + "." + parts[1], "latest"]
    ensures r.version == (parts[0] + "." + parts[1]) + "." + parts[2]
  {
    AcceptedParts(r);
    hide Accepted, Split, NumberOf, Decimal, AllDigits, HasLeadingZero;
    DecimalOfNumber(parts[0]);
    DecimalOfNumber(parts[1]);
    Dotted(parts[0], parts[1], parts[2]);
  }

  /** The tags pushed for a release are the aliases it earns. */
  lemma AliasesAreEarned(alias: string, r: Release)
    requires Accepted(r)
    ensures alias in AliasImageTags(r) <==> Earns(alias, r)
  {
    if r.prerelease.None? {
      var parts := Split(r.core, '.');
      AliasTags(r, parts);
      hide Accepted, Split, AliasImageTags, AllDigits;
      var short := parts[0] + "." + parts[1];
      NoDot(parts[2]);
      forall patch | AllDigits(patch) && r.version == alias + "." + patch ensures alias == short {
        NoDot(patch);
        LastDot(alias, patch, short, parts[2]);
      }
    }
  }

  lemma NoDot(digits: string)
    requires AllDigits(digits)
    ensures '.' !in digits
  {
  }

  /** An alias moves when it does not exist yet or serves a lower version, and stays when nobody can tell. */
  lemma MovePlanned(r: Release, state: AliasState)
    requires Accepted(r)
    ensures PlanAliasMove(r, state) == Move <==>
      state == Absent || (state.Serving? && exists x :: Accepted(x) && x.version == state.version && Precedes(x, r))
    ensures PlanAliasMove(r, state) == Noop <==> state == Serving(r.version)
  {
    if state.Serving? {
      forall x | Accepted(x) ensures x.version != "" && ParseVersion(x.version) == Some(x) {
        ServedIsText(x);
        AcceptedReparses(x);
      }
      var current := ParseVersion(state.version);
      if current.Some? {
        var x := current.value;
        ParsedIsAccepted(state.version);
        ComparesAsSemVer(r, x);
      }
      hide ParseVersion, CompareVersions, Accepted, Precedes;
    }
  }

  lemma ParsedIsAccepted(text: string)
    requires ParseVersion(text).Some?
    ensures Accepted(ParseVersion(text).value) && ParseVersion(text).value.version == text
  {
    assert ("v" + text)[1..] == text;
    hide Split, IdentifierProblem, NumberOf, CoreOf, PrereleaseOf;
  }

  ghost predicate IsHighest(alias: string, releases: seq<Release>, top: Release) {
    Earned(alias, releases, top) && forall r :: Earned(alias, releases, r) ==> CompareVersions(r, top) <= 0
  }

  /** The alias serves a version that earned it and that none that earned it outranks. */
  ghost predicate ServesHighest(alias: string, releases: seq<Release>, state: AliasState) {
    if state.Serving?
    then exists top :: IsHighest(alias, releases, top) && state.version == top.version
    else state == Absent && forall r :: !Earned(alias, releases, r)
  }

  lemma AliasStep(alias: string, releases: seq<Release>, r: Release, state: AliasState)
    requires Accepted(r) && forall x :: x in releases ==> Accepted(x)
    requires ServesHighest(alias, releases, state)
    ensures ServesHighest(alias, releases + [r], AfterRelease(alias, state, r))
  {
    hide CompareVersions, ParseReleaseTag;
    var all, after := releases + [r], AfterRelease(alias, state, r);
    AliasesAreEarned(alias, r);
    assert forall x :: Earned(alias, all, x) <==> Earned(alias, releases, x) || (x == r && Earns(alias, r)) by {
      hide Earns;
    }
    hide Earns, AliasImageTags, Precedes;
    ComparesAsSemVer(r, r);
    if state.Serving? {
      var top :| IsHighest(alias, releases, top) && state.version == top.version;
      AcceptedReparses(top);
      ServedIsText(top);
      ComparesAsSemVer(r, top);
      if after != state {
        forall x | Earned(alias, all, x) ensures CompareVersions(x, r) <= 0 {
          if x != r { ComparesTransitively(x, top, r); }
        }
        assert IsHighest(alias, all, r);
      } else {
        assert IsHighest(alias, all, top);
      }
    } else if alias in AliasImageTags(r) {
      assert IsHighest(alias, all, r);
    }
  }

  lemma ServedIsText(r: Release)
    requires Accepted(r)
    ensures r.version != ""
  {
    AcceptedParts(r);
    hide Accepted;
  }

  /** Aliases only move forward: whatever the order and the re-runs, an alias that did not exist ends up
      serving the highest version that earned it. */
  lemma {:induction false} AliasServesHighest(alias: string, releases: seq<Release>)
    requires forall r :: r in releases ==> Accepted(r)
    ensures ServesHighest(alias, releases, AfterReleases(alias, releases))
  {
    if releases != [] {
      var n := |releases| - 1;
      LastSplit(releases);
      hide ServesHighest, Accepted, AfterRelease;
      AliasServesHighest(alias, releases[..n]);
      AliasStep(alias, releases[..n], releases[n], AfterReleases(alias, releases[..n]));
    }
  }

  /** Two histories of the same releases, in any order and with any repeats, leave the alias the same. */
  lemma {:induction false} AliasForgetsOrder(alias: string, a: seq<Release>, b: seq<Release>)
    requires (forall r :: r in a ==> Accepted(r)) && forall r :: r in a <==> r in b
    ensures AfterReleases(alias, a) == AfterReleases(alias, b)
  {
    AliasServesHighest(alias, a);
    AliasServesHighest(alias, b);
    hide AfterReleases, Earns, CompareVersions, Accepted;
    var s, t := AfterReleases(alias, a), AfterReleases(alias, b);
    assert forall r :: Earned(alias, a, r) <==> Earned(alias, b, r);
    if s.Serving? && t.Serving? {
      var x :| IsHighest(alias, a, x) && s.version == x.version;
      var y :| IsHighest(alias, b, y) && t.version == y.version;
      ComparesAsSemVer(x, y);
    }
  }
}
