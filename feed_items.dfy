/**
 * The two RSS readers of the listing route (JobIndex and IT-jobbank): the search
 * parameters, and the normalisation of each `<item>` into a job record. The readers
 * differ only in their cap, their id prefix and the `supid` parameter.
 *
 * The feed is given as the sequence of `<item>` bodies the item regex finds, and
 * the tag regexes as a field lookup. `isoDate(s)` is `new Date(s).toISOString()`,
 * `None` where that throws; `locate(pattern, text)` is `text.match(pattern)[0]`.
 */
module FeedItems {
  import opened Wrappers
  import opened Strings
  import opened JobRecords

  datatype Source = JobIndex | ITJobBank

  /** JobIndex stops at 20 jobs, IT-jobbank at 25. */
  function Cap(source: Source): nat {
    match source
    case JobIndex => 20
    case ITJobBank => 25
  }

  function IdPrefix(source: Source): String {
    match source
    case JobIndex => "rss-"
    case ITJobBank => "itjobbank-"
  }

  /** The `locationMap` of both readers. */
  const AreaCodes: map<String, String> := map[
    "københavn" := "storkbh",
    "kobenhavn" := "storkbh",
    "kbh" := "storkbh",
    "storkøbenhavn" := "storkbh",
    "aarhus" := "0751",
    "odense" := "0461",
    "aalborg" := "0851"
  ]

  /** A location the readers do not filter by: absent, empty, or "danmark" in any case. */
  predicate NoLocationFilter(location: Option<String>) {
    location.None? || location.value == [] || ToLower(location.value) == "danmark"
  }

  /** The `area` parameter: the mapped code of the lowercased alias, or the location as given. */
  function AreaParam(location: Option<String>): (r: Option<String>)
    ensures r.None? <==> NoLocationFilter(location)
    ensures r.Some? && ToLower(location.value) in AreaCodes ==> r.value == AreaCodes[ToLower(location.value)]
    ensures r.Some? && ToLower(location.value) !in AreaCodes ==> r.value == location.value
  {
    if NoLocationFilter(location) then None
    else if ToLower(location.value) in AreaCodes then Some(AreaCodes[ToLower(location.value)])
    else Some(location.value)
  }

  /** The query parameters of the feed URL, in the order they are set. */
  function SearchParams(source: Source, keywords: String, location: Option<String>): (r: seq<(String, String)>)
    ensures ("q", keywords) in r
    ensures (exists v :: ("area", v) in r) <==> !NoLocationFilter(location)
  {
    var base := match source
      case JobIndex => [("supid", "1"), ("q", keywords)]
      case ITJobBank => [("q", keywords)];
    var area := AreaParam(location);
    var r := if area.Some? then base + [("area", area.value)] else base;
    assert area.Some? ==> r[|r| - 1] == ("area", area.value);
    r
  }

  /** The alias is matched in any case; unknown places are passed through as written. */
  lemma AreaParamExamples()
    ensures AreaParam(Some("København")) == Some("storkbh")
    ensures AreaParam(Some("DANMARK")) == None
    ensures AreaParam(Some("Vejle")) == Some("Vejle")
    ensures AreaParam(Some("")) == None
  {
    assert ToLower("København") == "københavn";
    assert ToLower("DANMARK") == "danmark";
    assert ToLower("Vejle") == "vejle";
  }

  // ---- description cleanup ----

  /** `s.replace(/pat/g, rep)` for a literal pattern: leftmost, non-overlapping. */
  function ReplaceAll(s: String, pat: String, rep: String): (r: String)
    requires pat != []
    ensures |rep| <= |pat| ==> |r| <= |s|
    ensures !Contains(s, pat) ==> r == s
    decreases |s|
  {
    if StartsWith(s, pat) then rep + ReplaceAll(s[|pat|..], pat, rep)
    else if s == [] then []
    else [s[0]] + ReplaceAll(s[1..], pat, rep)
  }

  predicate IsUpperHex(c: char) {
    '0' <= c <= '9' || 'A' <= c <= 'F'
  }

  /** The length of the leading run of `[0-9A-F]`. */
  function HexRun(s: String): (n: nat)
    ensures n <= |s|
    ensures forall i :: 0 <= i < n ==> IsUpperHex(s[i])
    ensures n < |s| ==> !IsUpperHex(s[n])
  {
    if s != [] && IsUpperHex(s[0]) then 1 + HexRun(s[1..]) else 0
  }

  /** The length of a `&#x[0-9A-F]+;` match at the start of `s`, 0 when there is none. */
  function EntityLength(s: String): (n: nat)
    ensures n == 0 || (5 <= n <= |s| && StartsWith(s, "&#x") && s[n - 1] == ';')
  {
    if StartsWith(s, "&#x") && 0 < HexRun(s[3..]) && 3 + HexRun(s[3..]) < |s| && s[3 + HexRun(s[3..])] == ';'
    then 4 + HexRun(s[3..])
    else 0
  }

  /** `s.replace(/&#x[0-9A-F]+;/g, '')` */
  function DropHexEntities(s: String): (r: String)
    ensures |r| <= |s|
    ensures '&' !in s ==> r == s
    decreases |s|
  {
    if s == [] then []
    else if EntityLength(s) > 0 then
      assert s[0] == s[..3][0] == '&';
      DropHexEntities(s[EntityLength(s)..])
    else [s[0]] + DropHexEntities(s[1..])
  }

  /** No `<` is followed, anywhere later, by a `>`: no complete tag is left. */
  predicate NoTag(s: String) {
    forall i, j :: 0 <= i < j < |s| && s[i] == '<' ==> s[j] != '>'
  }

  /** The index of the first `c` in `s`. */
  function IndexOf(s: String, c: char): (i: nat)
    requires c in s
    ensures i < |s| && s[i] == c && c !in s[..i]
  {
    if s[0] == c then 0
    else
      assert s == [s[0]] + s[1..];
      var k := IndexOf(s[1..], c);
      assert s[..k + 1] == [s[0]] + s[1..][..k];
      k + 1
  }

  /** `s.replace(/<[^>]*>/g, ' ')`: each `<` up to the next `>` becomes one space. */
  function StripTags(s: String): (r: String)
    ensures |r| <= |s|
    decreases |s|
  {
    if s == [] then []
    else if s[0] == '<' && '>' in s then [' '] + StripTags(s[IndexOf(s, '>') + 1..])
    else [s[0]] + StripTags(s[1..])
  }

  /** One character in front of a tag-free text keeps it tag-free unless it opens a tag. */
  lemma NoTagCons(c: char, rest: String)
    requires NoTag(rest)
    requires c == '<' ==> '>' !in rest
    ensures NoTag([c] + rest)
  {
    var t := [c] + rest;
    forall i, j | 0 <= i < j < |t| && t[i] == '<'
      ensures t[j] != '>'
    {
      assert t[j] == rest[j - 1];
      if i > 0 {
        assert t[i] == rest[i - 1];
      }
    }
  }

  /** No complete tag survives, and no `>` appears that was not in the input. */
  lemma {:induction false} StripTagsNoTag(s: String)
    ensures NoTag(StripTags(s))
    ensures '>' in StripTags(s) ==> '>' in s
    decreases |s|
  {
    if s == [] {
    } else if s[0] == '<' && '>' in s {
      var tail := s[IndexOf(s, '>') + 1..];
      StripTagsNoTag(tail);
      var rest := StripTags(tail);
      assert StripTags(s) == [' '] + rest;
      NoTagCons(' ', rest);
    } else {
      StripTagsNoTag(s[1..]);
      var rest := StripTags(s[1..]);
      assert StripTags(s) == [s[0]] + rest;
      assert s[0] == '<' ==> '>' !in s[1..];
      NoTagCons(s[0], rest);
    }
  }

  const MaxDescription: nat := 1500

  /** The entity and tag replacements of the cleanup chain. */
  function Unmarked(description: String): String {
    StripTags(DropHexEntities(ReplaceAll(ReplaceAll(description, "&lt;", "<"), "&gt;", ">")))
  }

  /** The cleanup chain of the readers, up to the final `.substring(0, 1500)`. */
  function CleanText(description: String): String {
    Trim(CollapseSpaces(Unmarked(description)))
  }

  /** `.substring(0, 1500)` */
  function Cut(c: String): (r: String)
    ensures |r| <= MaxDescription && |r| <= |c| && r == c[..|r|]
    ensures |c| <= MaxDescription ==> r == c
  {
    if |c| <= MaxDescription then c else c[..MaxDescription]
  }

  function CleanDescription(description: String): (r: String)
    ensures |r| <= MaxDescription
    ensures r == [] || !IsSpace(r[0])
  {
    Cut(CleanText(description))
  }

  /** The collapse, the trim and the cut leave single plain spaces, and a trimmed text when nothing is cut. */
  lemma CutLayout(u: String)
    ensures NoAdjacentSpaces(Cut(Trim(CollapseSpaces(u)))) && OnlyPlainSpaces(Cut(Trim(CollapseSpaces(u))))
    ensures |Trim(CollapseSpaces(u))| <= MaxDescription ==> IsTrimmed(Cut(Trim(CollapseSpaces(u))))
  {
    var c := Trim(CollapseSpaces(u));
    TrimmedCollapseLayout(u);
    CutKeepsLayout(c);
  }

  /** The cut keeps the layout, and keeps a trimmed string that fits whole. */
  lemma CutKeepsLayout(c: String)
    requires NoAdjacentSpaces(c) && OnlyPlainSpaces(c) && IsTrimmed(c)
    ensures NoAdjacentSpaces(Cut(c)) && OnlyPlainSpaces(Cut(c))
    ensures |c| <= MaxDescription ==> IsTrimmed(Cut(c))
  {
    PrefixLayout(c, |Cut(c)|);
  }

  lemma PrefixLayout(c: String, n: nat)
    requires n <= |c|
    requires NoAdjacentSpaces(c) && OnlyPlainSpaces(c)
    ensures NoAdjacentSpaces(c[..n]) && OnlyPlainSpaces(c[..n])
  {
    assert Slice(c, 0, n) == c[..n];
    SliceKeepsLayout(c, c[..n], 0);
  }

  /**
   * A cleaned description has at most 1500 characters, no white space other than
   * single plain spaces, starts with a non-space, and is trimmed unless the cut
   * fell right after a space.
   */
  lemma CleanDescriptionLayout(description: String)
    ensures NoAdjacentSpaces(CleanDescription(description)) && OnlyPlainSpaces(CleanDescription(description))
    ensures |CleanText(description)| <= MaxDescription ==> IsTrimmed(CleanDescription(description))
  {
    CutLayout(Unmarked(description));
  }

  /** A tag becomes one space; a lone `<` is kept. */
  lemma StripTagsExample()
    ensures StripTags("a<b>c") == "a c"
    ensures StripTags("1 < 2") == "1 < 2"
  {
    assert IndexOf("<b>c", '>') == 2;
    assert "a<b>c"[1..] == "<b>c";
    assert "<b>c"[3..] == "c";
    assert "1 < 2"[1..] == " < 2";
    assert " < 2"[1..] == "< 2";
    assert '>' !in "< 2";
  }

  // ---- title, company and location ----

  /** `titleParts[0]?.trim() || title` */
  function JobTitle(title: String): (r: String)
    ensures title != [] ==> r != []
  {
    var first := Trim(SplitOn(title, ',')[0]);
    if first != [] then first else title
  }

  /** The trimmed last comma segment when there is a comma, else "Se opslag". */
  function CompanyOf(title: String): (r: String)
  {
    var parts := SplitOn(title, ',');
    if |parts| > 1 then Trim(parts[|parts| - 1]) else "Se opslag"
  }

  /** A title without a comma is one segment: no company, and the title is the trimmed title. */
  lemma TitleWithoutComma(title: String)
    requires ',' !in title
    ensures CompanyOf(title) == "Se opslag"
    ensures JobTitle(title) == if Trim(title) != [] then Trim(title) else title
  {
    SplitCount(title, ',');
    SplitJoin(title, ',');
  }

  /** A title with a comma names the company after the last comma and the title before the first. */
  lemma TitleWithComma(title: String)
    requires ',' in title
    ensures var parts := SplitOn(title, ',');
      CompanyOf(title) == Trim(parts[|parts| - 1]) && ',' !in CompanyOf(title)
    ensures ',' !in SplitOn(title, ',')[0]
  {
    SplitCount(title, ',');
  }

  datatype LocationPattern = Copenhagen | Aarhus | Odense | Aalborg

  const LocationPatterns: seq<LocationPattern> := [Copenhagen, Aarhus, Odense, Aalborg]

  type LocationFind = (LocationPattern, String) -> Option<String>

  const DefaultLocation: String := "Danmark"

  /** The match of the first pattern (from `from` on) that matches, else "Danmark". */
  function LocationFrom(fullText: String, locate: LocationFind, from: nat): String
    requires from <= |LocationPatterns|
    decreases |LocationPatterns| - from
  {
    if from == |LocationPatterns| then DefaultLocation
    else if locate(LocationPatterns[from], fullText).Some? then locate(LocationPatterns[from], fullText).value
    else LocationFrom(fullText, locate, from + 1)
  }

  function LocationOf(fullText: String, locate: LocationFind): String {
    LocationFrom(fullText, locate, 0)
  }

  /** No pattern matches: the location is "Danmark". */
  lemma LocationDefault(fullText: String, locate: LocationFind)
    requires forall k :: 0 <= k < |LocationPatterns| ==> locate(LocationPatterns[k], fullText).None?
    ensures LocationOf(fullText, locate) == DefaultLocation
  {
  }

  /** The first matching pattern, in pattern order, gives the location. */
  lemma {:induction false} LocationFirstWins(fullText: String, locate: LocationFind, k: nat)
    requires k < |LocationPatterns| && locate(LocationPatterns[k], fullText).Some?
    requires forall j :: 0 <= j < k ==> locate(LocationPatterns[j], fullText).None?
    ensures LocationOf(fullText, locate) == locate(LocationPatterns[k], fullText).value
  {
    LocationFromSkips(fullText, locate, 0, k);
  }

  lemma {:induction false} LocationFromSkips(fullText: String, locate: LocationFind, from: nat, k: nat)
    requires from <= k < |LocationPatterns| && locate(LocationPatterns[k], fullText).Some?
    requires forall j :: from <= j < k ==> locate(LocationPatterns[j], fullText).None?
    ensures LocationFrom(fullText, locate, from) == locate(LocationPatterns[k], fullText).value
    decreases k - from
  {
    if from < k {
      LocationFromSkips(fullText, locate, from + 1, k);
    }
  }

  /** The `for (const pattern of locationPatterns)` loop with its `break`. */
  method InferLocation(fullText: String, locate: LocationFind) returns (location: String)
    ensures location == LocationOf(fullText, locate)
  {
    location := DefaultLocation;
    var k := 0;
    while k < |LocationPatterns|
      invariant 0 <= k <= |LocationPatterns|
      invariant location == DefaultLocation
      invariant LocationFrom(fullText, locate, k) == LocationOf(fullText, locate)
    {
      var m := locate(LocationPatterns[k], fullText);
      if m.Some? {
        location := m.value;
        break;
      }
      k := k + 1;
    }
  }

  // ---- items to jobs ----

  /** What the tag regexes find in one item, `''` for a missing or empty tag. */
  datatype ItemFields = ItemFields(title: String, link: String, description: String, category: String, pubDate: String)

  type FieldLookup = String -> ItemFields
  type IsoDate = String -> Option<String>

  /** `title && link`: an item is emitted only with a non-empty title and link. */
  predicate Emits(f: ItemFields) {
    f.title != [] && f.link != []
  }

  /** The text the location patterns are tried on. */
  function LocationText(f: ItemFields): String {
    ToLower(f.title + " " + CleanDescription(f.description))
  }

  /** The record pushed for the `n`-th emitted item. */
  function MakeJob(source: Source, n: nat, f: ItemFields, location: String, postedDate: String): Job {
    var clean := CleanDescription(f.description);
    Job(IdPrefix(source) + NatToString(n), JobTitle(f.title), CompanyOf(f.title), location,
        if clean != [] then clean else "Klik for at se fuld jobbeskrivelse",
        f.link, postedDate, None, if f.category != [] then f.category else "Se opslag",
        None, None, None)
  }

  /** Builds the record of the `n`-th emitted item from its fields and its converted date. */
  type JobBuilder = (nat, ItemFields, String) -> Job

  function ItemJob(source: Source, locate: LocationFind): JobBuilder {
    (n: nat, f: ItemFields, d: String) => MakeJob(source, n, f, LocationOf(LocationText(f), locate), d)
  }

  /** `pubDate || new Date().toISOString()`: a missing or empty date tag reads as now. */
  function DateText(f: ItemFields, now: String): (r: String)
    ensures f.pubDate != [] ==> r == f.pubDate
    ensures f.pubDate == [] ==> r == now
  {
    if f.pubDate != [] then f.pubDate else now
  }

  /** One item: skipped, appended as the next record, or `None` where the date conversion throws. */
  function Step(jobs: seq<Job>, f: ItemFields, isoDate: IsoDate, now: String, build: JobBuilder): Option<seq<Job>> {
    if !Emits(f) then Some(jobs)
    else match isoDate(DateText(f, now))
      case None => None
      case Some(d) => Some(jobs + [build(|jobs| + 1, f, d)])
  }

  /**
   * The reader's state after the first `i` items: `None` once a date conversion has
   * thrown. Items after the cap is reached are not looked at.
   */
  function ParsedUpTo(items: seq<String>, i: nat, fields: FieldLookup, isoDate: IsoDate, now: String,
                      cap: nat, build: JobBuilder): (r: Option<seq<Job>>)
    requires i <= |items|
    ensures r.Some? ==> |r.value| <= cap
  {
    if i == 0 then Some([])
    else
      var prev := ParsedUpTo(items, i - 1, fields, isoDate, now, cap, build);
      if prev.None? || |prev.value| >= cap then prev
      else Step(prev.value, fields(items[i - 1]), isoDate, now, build)
  }

  /** parseJobIndexRSS / parseITJobBankRSS: the jobs, or `[]` when the reader threw. */
  function ParseFeed(source: Source, items: seq<String>, fields: FieldLookup, isoDate: IsoDate,
                     locate: LocationFind, now: String): seq<Job> {
    ParsedUpTo(items, |items|, fields, isoDate, now, Cap(source), ItemJob(source, locate)).GetOr([])
  }

  /** The body of the reader's `while` loop for one item; `failed` is the exception. */
  method ReadItem(source: Source, jobs: seq<Job>, f: ItemFields, isoDate: IsoDate, locate: LocationFind, now: String)
    returns (jobs': seq<Job>, failed: bool)
    ensures (if failed then None else Some(jobs')) == Step(jobs, f, isoDate, now, ItemJob(source, locate))
  {
    jobs', failed := jobs, false;
    var pubDate := if f.pubDate != [] then f.pubDate else now;
    var location := InferLocation(LocationText(f), locate);
    if Emits(f) {
      var posted := isoDate(pubDate);
      if posted.None? {
        failed := true;
      } else {
        jobs' := jobs + [MakeJob(source, |jobs| + 1, f, location, posted.value)];
      }
    }
  }

  /** The reader loop: `while (exec(...) !== null && jobs.length < cap)`, inside `try`. */
  method ReadFeed(source: Source, items: seq<String>, fields: FieldLookup, isoDate: IsoDate,
                  locate: LocationFind, now: String) returns (jobs: seq<Job>)
    ensures jobs == ParseFeed(source, items, fields, isoDate, locate, now)
  {
    var cap, build := Cap(source), ItemJob(source, locate);
    jobs := [];
    var i := 0;
    var failed := false;
    while i < |items| && |jobs| < cap && !failed
      invariant 0 <= i <= |items|
      invariant !failed ==> ParsedUpTo(items, i, fields, isoDate, now, cap, build) == Some(jobs)
      invariant failed ==> ParsedUpTo(items, i, fields, isoDate, now, cap, build).None?
    {
      var j2, f2 := ReadItem(source, jobs, fields(items[i]), isoDate, locate, now);
      StepCase(items, i, fields, isoDate, now, cap, build, jobs, j2, f2);
      jobs, failed := j2, f2;
      i := i + 1;
    }
    if failed {
      FeedThrown(source, items, i, fields, isoDate, locate, now);
      jobs := [];
    } else {
      FeedFinished(source, items, i, fields, isoDate, locate, now, jobs);
    }
  }

  lemma FeedThrown(source: Source, items: seq<String>, i: nat, fields: FieldLookup, isoDate: IsoDate,
                   locate: LocationFind, now: String)
    requires i <= |items|
    requires ParsedUpTo(items, i, fields, isoDate, now, Cap(source), ItemJob(source, locate)).None?
    ensures ParseFeed(source, items, fields, isoDate, locate, now) == []
  {
    NoneSticks(items, i, |items|, fields, isoDate, now, Cap(source), ItemJob(source, locate));
  }

  lemma FeedFinished(source: Source, items: seq<String>, i: nat, fields: FieldLookup, isoDate: IsoDate,
                     locate: LocationFind, now: String, jobs: seq<Job>)
    requires i <= |items|
    requires ParsedUpTo(items, i, fields, isoDate, now, Cap(source), ItemJob(source, locate)) == Some(jobs)
    requires i == |items| || |jobs| >= Cap(source)
    ensures ParseFeed(source, items, fields, isoDate, locate, now) == jobs
  {
    CapSticks(items, i, |items|, fields, isoDate, now, Cap(source), ItemJob(source, locate));
  }

  lemma StepCase(items: seq<String>, i: nat, fields: FieldLookup, isoDate: IsoDate, now: String,
                 cap: nat, build: JobBuilder, jobs: seq<Job>, jobs': seq<Job>, failed: bool)
    requires i < |items| && |jobs| < cap
    requires ParsedUpTo(items, i, fields, isoDate, now, cap, build) == Some(jobs)
    requires (if failed then None else Some(jobs')) == Step(jobs, fields(items[i]), isoDate, now, build)
    ensures failed ==> ParsedUpTo(items, i + 1, fields, isoDate, now, cap, build).None?
    ensures !failed ==> ParsedUpTo(items, i + 1, fields, isoDate, now, cap, build) == Some(jobs')
  {
  }

  /** Once the reader has thrown, it stays thrown. */
  lemma {:induction false} NoneSticks(items: seq<String>, i: nat, j: nat, fields: FieldLookup, isoDate: IsoDate,
                                      now: String, cap: nat, build: JobBuilder)
    requires i <= j <= |items|
    requires ParsedUpTo(items, i, fields, isoDate, now, cap, build).None?
    ensures ParsedUpTo(items, j, fields, isoDate, now, cap, build).None?
    decreases j - i
  {
    if i < j {
      NoneSticks(items, i + 1, j, fields, isoDate, now, cap, build);
    }
  }

  /** Once the cap is reached, or the items are exhausted, the result is final. */
  lemma {:induction false} CapSticks(items: seq<String>, i: nat, j: nat, fields: FieldLookup, isoDate: IsoDate,
                                     now: String, cap: nat, build: JobBuilder)
    requires i <= j <= |items|
    requires i == |items| || (ParsedUpTo(items, i, fields, isoDate, now, cap, build).Some? &&
      |ParsedUpTo(items, i, fields, isoDate, now, cap, build).value| >= cap)
    ensures ParsedUpTo(items, j, fields, isoDate, now, cap, build) == ParsedUpTo(items, i, fields, isoDate, now, cap, build)
    decreases j - i
  {
    if i < j {
      CapSticks(items, i + 1, j, fields, isoDate, now, cap, build);
    }
  }

  /** The builder numbers the record `n` as `<prefix><n>` and keeps a non-empty title and link. */
  ghost predicate BuilderShape(build: JobBuilder, prefix: String) {
    forall n: nat, f: ItemFields, d: String :: Emits(f) ==>
      build(n, f, d).id == prefix + NatToString(n) && build(n, f, d).title != [] && build(n, f, d).url != []
  }

  lemma ItemJobShape(source: Source, locate: LocationFind)
    ensures BuilderShape(ItemJob(source, locate), IdPrefix(source))
  {
    forall n: nat, f: ItemFields, d: String | Emits(f)
      ensures ItemJob(source, locate)(n, f, d).title != [] && ItemJob(source, locate)(n, f, d).url != []
    {
      assert ItemJob(source, locate)(n, f, d).title == JobTitle(f.title);
    }
  }

  /** Each emitted job is numbered by its position, counted from 1, with no gaps. */
  lemma {:induction false} ParsedJobsShape(items: seq<String>, i: nat, fields: FieldLookup, isoDate: IsoDate,
                                           now: String, cap: nat, build: JobBuilder, prefix: String)
    requires i <= |items|
    requires BuilderShape(build, prefix)
    requires ParsedUpTo(items, i, fields, isoDate, now, cap, build).Some?
    ensures var jobs := ParsedUpTo(items, i, fields, isoDate, now, cap, build).value;
      forall k :: 0 <= k < |jobs| ==>
        jobs[k].id == prefix + NatToString(k + 1) && jobs[k].title != [] && jobs[k].url != []
  {
    if i > 0 {
      ParsedJobsShape(items, i - 1, fields, isoDate, now, cap, build, prefix);
    }
  }

  /** The feed's jobs: at most the cap, numbered 1, 2, … without gaps, each with title and URL. */
  lemma FeedShape(source: Source, items: seq<String>, fields: FieldLookup, isoDate: IsoDate,
                  locate: LocationFind, now: String)
    ensures var jobs := ParseFeed(source, items, fields, isoDate, locate, now);
      |jobs| <= Cap(source) &&
      forall k :: 0 <= k < |jobs| ==>
        jobs[k].id == IdPrefix(source) + NatToString(k + 1) && jobs[k].title != [] && jobs[k].url != []
  {
    var build := ItemJob(source, locate);
    if ParsedUpTo(items, |items|, fields, isoDate, now, Cap(source), build).Some? {
      ItemJobShape(source, locate);
      ParsedJobsShape(items, |items|, fields, isoDate, now, Cap(source), build, IdPrefix(source));
    }
  }

  /** No two jobs of one feed share an id. */
  lemma FeedIdsDistinct(source: Source, items: seq<String>, fields: FieldLookup, isoDate: IsoDate,
                        locate: LocationFind, now: String)
    ensures var jobs := ParseFeed(source, items, fields, isoDate, locate, now);
      forall k, l :: 0 <= k < l < |jobs| ==> jobs[k].id != jobs[l].id
  {
    var jobs := ParseFeed(source, items, fields, isoDate, locate, now);
    FeedShape(source, items, fields, isoDate, locate, now);
    forall k, l | 0 <= k < l < |jobs| ensures jobs[k].id != jobs[l].id {
      if jobs[k].id == jobs[l].id {
        var p := IdPrefix(source);
        assert (p + NatToString(k + 1))[|p|..] == NatToString(k + 1);
        assert (p + NatToString(l + 1))[|p|..] == NatToString(l + 1);
        NatToStringInjective(k + 1, l + 1);
      }
    }
  }

  /** A first item with title and link but an unreadable date makes the whole feed `[]`. */
  lemma FirstItemBadDate(source: Source, items: seq<String>, fields: FieldLookup, isoDate: IsoDate,
                         locate: LocationFind, now: String)
    requires |items| > 0 && Emits(fields(items[0]))
    requires isoDate(DateText(fields(items[0]), now)).None?
    ensures ParseFeed(source, items, fields, isoDate, locate, now) == []
  {
    NoneSticks(items, 1, |items|, fields, isoDate, now, Cap(source), ItemJob(source, locate));
  }

  /**
   * A first item with title and link but an empty (or missing) date tag is emitted
   * with the current time as its date, when that converts.
   */
  lemma EmptyDateReadsNow(items: seq<String>, fields: FieldLookup, isoDate: IsoDate, now: String, cap: nat,
                          build: JobBuilder, d: String)
    requires |items| > 0 && cap > 0 && Emits(fields(items[0])) && fields(items[0]).pubDate == []
    requires isoDate(now) == Some(d)
    ensures ParsedUpTo(items, 1, fields, isoDate, now, cap, build) == Some([build(1, fields(items[0]), d)])
  {
    var f := fields(items[0]);
    assert ParsedUpTo(items, 0, fields, isoDate, now, cap, build) == Some([]);
    assert isoDate(DateText(f, now)) == Some(d);
    assert Step([], f, isoDate, now, build) == Some([] + [build(0 + 1, f, d)]);
    assert [] + [build(1, f, d)] == [build(1, f, d)];
  }

  /** Items without a title or a link are skipped and take no id. */
  lemma SkippedItemsTakeNoId(source: Source, items: seq<String>, fields: FieldLookup, isoDate: IsoDate,
                             locate: LocationFind, now: String)
    requires forall k :: 0 <= k < |items| ==> !Emits(fields(items[k]))
    ensures ParseFeed(source, items, fields, isoDate, locate, now) == []
  {
    SkippedPrefix(items, |items|, fields, isoDate, now, Cap(source), ItemJob(source, locate));
  }

  lemma {:induction false} SkippedPrefix(items: seq<String>, i: nat, fields: FieldLookup, isoDate: IsoDate,
                                         now: String, cap: nat, build: JobBuilder)
    requires i <= |items|
    requires forall k :: 0 <= k < i ==> !Emits(fields(items[k]))
    ensures ParsedUpTo(items, i, fields, isoDate, now, cap, build) == Some([])
  {
    if i > 0 {
      SkippedPrefix(items, i - 1, fields, isoDate, now, cap, build);
    }
  }
}
