/**
 * extractRequirements of the job analyser. Candidates come first from bullet and
 * numbered lines, then from eight requirement phrases; the candidates are
 * deduplicated on exact equality, then cleaned (line breaks and white-space runs
 * become one space, ends trimmed), filtered to 16..299 characters and cut to 12.
 * The regexes are parameters: `BulletMatch(shape, line)` is group 1 of
 * `line.match(pattern)`, and `PhraseScan(phrase, text)` lists the groups of each
 * successive `exec` in order.
 */
module RequirementExtraction {
  import opened Wrappers
  import opened Strings
  import opened Seqs

  /** `^[\s]*[-•*]\s+(.+)$` and `^[\s]*\d+[\.)]\s+(.+)$`, in that order. */
  datatype BulletShape = Dashed | Numbered

  const BulletShapes: seq<BulletShape> := [Dashed, Numbered]

  type BulletMatch = (BulletShape, String) -> Option<String>

  /** The requirement phrases, Danish first, in the order they are tried. */
  datatype RequirementPhrase =
    | ErfaringMed         // erfaring med / erfaring inden for / erfaring i
    | DuHar               // du har / du skal
    | MinimumAar          // minimum / mindst + N år|years, then the text
    | KendskabTil         // kendskab til / viden om
    | ExperienceWithIn    // experience with / experience in
    | KnowledgeOf         // knowledge of
    | YouHave             // you have / you must have
    | AtLeastYears        // minimum / at least + N år|years, optional "of", then the text

  const RequirementPhrases: seq<RequirementPhrase> :=
    [ErfaringMed, DuHar, MinimumAar, KendskabTil, ExperienceWithIn, KnowledgeOf, YouHave, AtLeastYears]

  /** Groups 1 and 2 of one phrase match; an unmatched group is `None`. */
  datatype PhraseMatch = PhraseMatch(group1: Option<String>, group2: Option<String>)

  type PhraseScan = (RequirementPhrase, String) -> seq<PhraseMatch>

  const MaxRequirements: nat := 12

  /** A bullet text is kept when it is longer than 15 and does not start with "learn". */
  predicate KeepsBullet(req: String) {
    |req| > 15 && !StartsWith(ToLower(req), "learn")
  }

  /** `if (match && match[1])`: a match with a non-empty group, trimmed and filtered. */
  function BulletKept(m: Option<String>): seq<String> {
    match m
    case Some(g) => if g != [] && KeepsBullet(Trim(g)) then [Trim(g)] else []
    case None => []
  }

  function ShapeKept(bullets: BulletMatch, line: String): BulletShape -> seq<String> {
    shape => BulletKept(bullets(shape, line))
  }

  /** The bullet candidates of one line: one per matching shape. */
  function LineBullets(bullets: BulletMatch, line: String): seq<String> {
    FlatMap(BulletShapes, ShapeKept(bullets, line))
  }

  function LineKept(bullets: BulletMatch): String -> seq<String> {
    line => LineBullets(bullets, line)
  }

  /** The bullet candidates of the text, line by line. */
  function Bullets(text: String, bullets: BulletMatch): seq<String> {
    FlatMap(SplitOn(text, '\n'), LineKept(bullets))
  }

  /** `(match[1] || match[2] || '')`: an empty group counts as missing. */
  function FirstGroup(m: PhraseMatch): String {
    if m.group1.Some? && m.group1.value != [] then m.group1.value
    else if m.group2.Some? && m.group2.value != [] then m.group2.value
    else []
  }

  function PhraseText(m: PhraseMatch): String {
    Trim(FirstGroup(m))
  }

  predicate LongerThan15(req: String) {
    |req| > 15
  }

  /** The candidates one phrase contributes. */
  function PhraseKept(matches: seq<PhraseMatch>): seq<String> {
    Filter(Map(matches, PhraseText), LongerThan15)
  }

  function PhraseKeptBy(text: String, scan: PhraseScan): RequirementPhrase -> seq<String> {
    phrase => PhraseKept(scan(phrase, text))
  }

  function Phrases(text: String, scan: PhraseScan): seq<String> {
    FlatMap(RequirementPhrases, PhraseKeptBy(text, scan))
  }

  /** `/[\r\n]+/g` -> " ": every run of carriage returns and line feeds becomes one space. */
  function LineBreaksToSpaces(s: String): (r: String)
    ensures '\n' !in r && '\r' !in r
    decreases |s|
  {
    if s == [] then []
    else if s[0] == '\r' || s[0] == '\n' then " " + LineBreaksToSpaces(SkipLineBreaks(s[1..]))
    else [s[0]] + LineBreaksToSpaces(s[1..])
  }

  function SkipLineBreaks(s: String): (r: String)
    ensures |r| <= |s|
    decreases |s|
  {
    if s != [] && (s[0] == '\r' || s[0] == '\n') then SkipLineBreaks(s[1..]) else s
  }

  /** The clean-up applied to every deduplicated candidate. */
  function Clean(req: String): String {
    Trim(CollapseSpaces(LineBreaksToSpaces(req)))
  }

  predicate InBounds(req: String) {
    15 < |req| < 300
  }

  /** From the candidate list to the answer: Set, clean, length filter, top 12. */
  function Finalize(candidates: seq<String>): seq<String> {
    Take(Filter(Map(Unique(candidates), Clean), InBounds), MaxRequirements)
  }

  function RequirementsOf(text: String, bullets: BulletMatch, scan: PhraseScan): seq<String> {
    Finalize(Bullets(text, bullets) + Phrases(text, scan))
  }

  /** The inner loop over the two bullet shapes for one line. */
  method ScanLine(line: String, bullets: BulletMatch) returns (found: seq<String>)
    ensures found == LineBullets(bullets, line)
  {
    found := [];
    var i := 0;
    while i < |BulletShapes|
      invariant 0 <= i <= |BulletShapes|
      invariant found == FlatMap(BulletShapes[..i], ShapeKept(bullets, line))
    {
      var m := bullets(BulletShapes[i], line);
      if m.Some? && m.value != [] {
        var requirement := Trim(m.value);
        if |requirement| > 15 && !StartsWith(ToLower(requirement), "learn") {
          found := found + [requirement];
        }
      }
      FlatMapSnoc(BulletShapes, i, ShapeKept(bullets, line));
      i := i + 1;
    }
    assert BulletShapes[..i] == BulletShapes;
  }

  lemma PhraseKeptSnoc(matches: seq<PhraseMatch>, j: nat)
    requires j < |matches|
    ensures PhraseKept(matches[..j + 1]) == PhraseKept(matches[..j])
      + (if LongerThan15(PhraseText(matches[j])) then [PhraseText(matches[j])] else [])
  {
    assert matches[..j + 1] == matches[..j] + [matches[j]];
    MapConcat(matches[..j], [matches[j]], PhraseText);
    assert Map([matches[j]], PhraseText) == [PhraseText(matches[j])];
    FilterSnoc(Map(matches[..j], PhraseText), PhraseText(matches[j]), LongerThan15);
  }

  /** The `while ((match = pattern.exec(text)) !== null)` loop of one phrase. */
  method ScanPhrase(matches: seq<PhraseMatch>) returns (kept: seq<String>)
    ensures kept == PhraseKept(matches)
  {
    kept := [];
    var j := 0;
    assert PhraseKept(matches[..0]) == [] by { assert matches[..0] == []; }
    while j < |matches|
      invariant 0 <= j <= |matches|
      invariant kept == PhraseKept(matches[..j])
    {
      var requirement := Trim(FirstGroup(matches[j]));
      PhraseKeptSnoc(matches, j);
      if |requirement| > 15 {
        kept := kept + [requirement];
      }
      j := j + 1;
    }
    assert matches[..j] == matches;
  }

  /** extractRequirements. */
  method ExtractRequirements(text: String, bullets: BulletMatch, scan: PhraseScan)
    returns (requirements: seq<String>)
    ensures requirements == RequirementsOf(text, bullets, scan)
  {
    var lines := SplitOn(text, '\n');
    var fromBullets: seq<String> := [];
    var l := 0;
    while l < |lines|
      invariant 0 <= l <= |lines|
      invariant fromBullets == FlatMap(lines[..l], LineKept(bullets))
    {
      var found := ScanLine(lines[l], bullets);
      fromBullets := fromBullets + found;
      FlatMapSnoc(lines, l, LineKept(bullets));
      l := l + 1;
    }
    assert lines[..l] == lines;
    var fromPhrases: seq<String> := [];
    var p := 0;
    while p < |RequirementPhrases|
      invariant 0 <= p <= |RequirementPhrases|
      invariant fromPhrases == FlatMap(RequirementPhrases[..p], PhraseKeptBy(text, scan))
    {
      var kept := ScanPhrase(scan(RequirementPhrases[p], text));
      fromPhrases := fromPhrases + kept;
      FlatMapSnoc(RequirementPhrases, p, PhraseKeptBy(text, scan));
      p := p + 1;
    }
    assert RequirementPhrases[..p] == RequirementPhrases;
    requirements := Finalize(fromBullets + fromPhrases);
  }

  /** A cleaned candidate is trimmed, single-spaced and free of line breaks. */
  lemma CleanLayout(req: String)
    ensures IsTrimmed(Clean(req))
    ensures NoAdjacentSpaces(Clean(req)) && OnlyPlainSpaces(Clean(req))
    ensures '\n' !in Clean(req) && '\r' !in Clean(req)
  {
    var u := LineBreaksToSpaces(req);
    var c := Trim(CollapseSpaces(u));
    TrimmedCollapseLayout(u);
    assert Clean(req) == c;
    assert IsTrimmed(c);
    PlainSpacesNoBreaks(c);
  }

  /**
   * At most 12 requirements; each is 16..299 characters long, trimmed, without
   * line breaks and without two white-space characters in a row.
   */
  lemma RequirementsShape(text: String, bullets: BulletMatch, scan: PhraseScan)
    ensures |RequirementsOf(text, bullets, scan)| <= MaxRequirements
    ensures forall r :: r in RequirementsOf(text, bullets, scan) ==>
      15 < |r| < 300 && IsTrimmed(r) && NoAdjacentSpaces(r) && '\n' !in r && '\r' !in r
  {
    var cleaned := Map(Unique(Bullets(text, bullets) + Phrases(text, scan)), Clean);
    var kept := Filter(cleaned, InBounds);
    var result := Take(kept, MaxRequirements);
    forall r | r in result
      ensures 15 < |r| < 300 && IsTrimmed(r) && NoAdjacentSpaces(r) && '\n' !in r && '\r' !in r
    {
      assert r in kept;
      FilterMembers(cleaned, InBounds, r);
      var i :| 0 <= i < |cleaned| && cleaned[i] == r;
      CleanLayout(Unique(Bullets(text, bullets) + Phrases(text, scan))[i]);
    }
  }

  /**
   * Bullet candidates come before phrase candidates: the deduplicated candidate list
   * is the distinct bullets followed by the distinct phrase captures that are not
   * also bullets.
   */
  lemma BulletsFirst(text: String, bullets: BulletMatch, scan: PhraseScan)
    ensures var b := Bullets(text, bullets);
      RequirementsOf(text, bullets, scan)
        == Take(Filter(Map(Unique(b) + Filter(Unique(Phrases(text, scan)), NotIn(b)), Clean), InBounds),
                MaxRequirements)
  {
    UniqueConcat(Bullets(text, bullets), Phrases(text, scan));
  }

  /** A shape's match yields a candidate iff its group is non-empty and its trimmed text passes. */
  lemma BulletKeptMembers(m: Option<String>, x: String)
    ensures x in BulletKept(m) <==> m.Some? && m.value != [] && Trim(m.value) == x && KeepsBullet(x)
  {
  }

  /**
   * A line contributes a bullet candidate exactly when one of the shapes matches with
   * a non-empty group whose trimmed text is longer than 15 and does not start with
   * "learn" in any case.
   */
  lemma LineBulletMembers(bullets: BulletMatch, line: String, x: String)
    ensures x in LineBullets(bullets, line) <==>
      KeepsBullet(x) && exists k :: 0 <= k < |BulletShapes| && Yields(bullets(BulletShapes[k], line), x)
  {
    FlatMapMembers(BulletShapes, ShapeKept(bullets, line), x);
    forall k | 0 <= k < |BulletShapes| {
      BulletKeptMembers(bullets(BulletShapes[k], line), x);
    }
  }

  /** The match has a non-empty group that trims to `x`. */
  predicate Yields(m: Option<String>, x: String) {
    m.Some? && m.value != [] && Trim(m.value) == x
  }

  /** A bullet starting with "Learn", in any case, is never a candidate. */
  lemma LearnBulletsDropped(bullets: BulletMatch, line: String, x: String)
    requires StartsWith(ToLower(x), "learn")
    ensures x !in LineBullets(bullets, line)
  {
    LineBulletMembers(bullets, line, x);
  }

  /**
   * For the "minimum N years" phrases group 1 always matches (it is `\d+\s+years`),
   * so the requirement is the year count and the trailing text in group 2 is unused.
   */
  lemma FirstGroupWins(m: PhraseMatch, g: String)
    requires m.group1 == Some(g) && g != []
    ensures PhraseText(m) == Trim(g)
  {
  }

  /** Group 2 is used only when group 1 is missing or empty. */
  lemma SecondGroupFallback(m: PhraseMatch)
    ensures PhraseText(m) == Trim(m.group2.value) <== (m.group1 == None || m.group1 == Some([]))
      && m.group2.Some? && m.group2.value != []
    ensures PhraseText(m) == [] <== (m.group1 == None || m.group1 == Some([]))
      && (m.group2 == None || m.group2 == Some([]))
  {
    var g := FirstGroup(m);
    if m.group1 == None || m.group1 == Some([]) {
      if m.group2.Some? && m.group2.value != [] {
        assert g == m.group2.value;
      } else {
        assert g == [];
        TrimEmpty();
      }
    }
  }

  lemma TrimEmpty()
    ensures Trim([]) == []
  {
  }

  /** Every phrase candidate is trimmed and longer than 15. */
  lemma PhrasesKept(text: String, scan: PhraseScan)
    ensures forall x :: x in Phrases(text, scan) ==> |x| > 15 && IsTrimmed(x)
  {
    forall x | x in Phrases(text, scan) ensures |x| > 15 && IsTrimmed(x) {
      FlatMapMembers(RequirementPhrases, PhraseKeptBy(text, scan), x);
      var k :| 0 <= k < |RequirementPhrases| && x in PhraseKeptBy(text, scan)(RequirementPhrases[k]);
      var ms := scan(RequirementPhrases[k], text);
      FilterMembers(Map(ms, PhraseText), LongerThan15, x);
    }
  }

  /**
   * Deduplication runs before the clean-up: two candidates that differ only in
   * white space both survive it and come out as the same requirement twice.
   */
  lemma DedupBeforeCleanup(a: String, b: String)
    requires a != b && Clean(a) == Clean(b) && InBounds(Clean(a))
    ensures Finalize([a, b]) == [Clean(a), Clean(a)]
  {
    DedupThenMap(a, b, Clean, InBounds, MaxRequirements);
  }

  lemma DedupThenMap(a: String, b: String, f: String -> String, keep: String -> bool, n: nat)
    requires a != b && f(a) == f(b) && keep(f(a)) && n >= 2
    ensures Take(Filter(Map(Unique([a, b]), f), keep), n) == [f(a), f(a)]
  {
    UniqueByOfDistinct([a, b], Id);
    MapPair(a, b, f);
    FilterAll([f(a), f(b)], keep);
  }
}
