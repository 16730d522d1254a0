/**
 * The keyword highlighter of the job analyser page. The text is split into lines.
 * Each line starts as one plain part and is re-segmented once per keyword
 * (technical keywords first, then soft ones). Every plain part is split by the
 * keyword's case-insensitive, word-bounded pattern. Pieces the pattern accepts
 * become highlight spans, numbered by one counter that runs through the whole
 * text. Other non-empty pieces stay plain, and spans made for earlier keywords
 * are copied unchanged.
 *
 * The pattern itself is left abstract: `Splitter` is `part.split(regex)` and
 * `Searcher` is the matcher behind `regex.test`, whose `g` flag makes the test
 * start at `lastIndex` and move it.
 */
module KeywordHighlight {
  import opened Wrappers
  import opened Strings
  import opened Seqs

  /** The keyword lists of an analysis; either may be absent. */
  datatype Keywords = Keywords(technical: Option<seq<String>>, soft: Option<seq<String>>)

  /** A piece of a rendered line: plain text, or a span with the keyword that made it and its key number. */
  datatype Part =
    | Plain(text: String)
    | Mark(text: String, keyword: String, technical: bool, key: nat)

  /** One `<div>`: its parts, and whether a `<br/>` closes it. */
  datatype RenderedLine = RenderedLine(parts: seq<Part>, lineBreak: bool)

  /** The text returned as it is, or one rendered element per line. */
  datatype Highlighted = Unchanged(text: String) | Lines(lines: seq<RenderedLine>)

  /** `part.split(new RegExp(`(\\b${keyword}\\b)`, 'gi'))` for `(keyword, part)`. */
  type Splitter = (String, String) -> seq<String>

  /** For `(keyword, s, from)`: the end of the first match in `s` that starts at or after `from`, if any. */
  type Searcher = (String, String, nat) -> Option<nat>

  /** `[...(keywords.technical || []), ...(keywords.soft || [])]` */
  function AllKeywords(keywords: Keywords): seq<String> {
    keywords.technical.GetOr([]) + keywords.soft.GetOr([])
  }

  /** `keywords.technical?.includes(keyword)` */
  predicate IsTechnical(keywords: Keywords, keyword: String) {
    keywords.technical.Some? && keyword in keywords.technical.value
  }

  // ---- `regex.test` with the global flag ----

  datatype TestResult = TestResult(hit: bool, lastIndex: nat)

  /**
   * A `lastIndex` past the end fails and resets to 0. Otherwise the search starts
   * at `lastIndex`: a match moves it to the match's end, a miss resets it to 0.
   */
  function RegexTest(search: Searcher, keyword: String, piece: String, lastIndex: nat): (t: TestResult)
    ensures !t.hit ==> t.lastIndex == 0
    ensures t.hit <==> lastIndex <= |piece| && search(keyword, piece, lastIndex).Some?
  {
    if lastIndex > |piece| then TestResult(false, 0)
    else match search(keyword, piece, lastIndex)
      case Some(e) => TestResult(true, e)
      case None => TestResult(false, 0)
  }

  // ---- the specification, one level per loop ----

  /** The state while the pieces of one part are pushed: the new parts, the key counter and `lastIndex`. */
  datatype Pass = Pass(parts: seq<Part>, counter: nat, lastIndex: nat)

  /** The parts built so far and the key counter. */
  datatype Acc = Acc(parts: seq<Part>, counter: nat)

  /** One piece: a span if the pattern accepts it, plain text if it is not empty, and nothing otherwise. */
  function PieceStep(p: Pass, piece: String, keyword: String, technical: bool, search: Searcher): Pass {
    var t := RegexTest(search, keyword, piece, p.lastIndex);
    if t.hit then Pass(p.parts + [Mark(piece, keyword, technical, p.counter)], p.counter + 1, t.lastIndex)
    else if piece != [] then Pass(p.parts + [Plain(piece)], p.counter, t.lastIndex)
    else Pass(p.parts, p.counter, t.lastIndex)
  }

  /** `splitParts.forEach(...)`: the pieces of one part, in order. */
  function SplitPieces(start: Pass, pieces: seq<String>, keyword: String, technical: bool, search: Searcher): Pass
    decreases |pieces|
  {
    if pieces == [] then start
    else PieceStep(SplitPieces(start, pieces[..|pieces| - 1], keyword, technical, search),
                   pieces[|pieces| - 1], keyword, technical, search)
  }

  /** One part: a plain part is split with a fresh pattern (`lastIndex` 0); a span is copied. */
  function PartStep(acc: Acc, part: Part, keyword: String, technical: bool, split: Splitter, search: Searcher): Acc {
    match part
    case Plain(s) =>
      var p := SplitPieces(Pass(acc.parts, acc.counter, 0), split(keyword, s), keyword, technical, search);
      Acc(p.parts, p.counter)
    case Mark(_, _, _, _) => Acc(acc.parts + [part], acc.counter)
  }

  /** `parts.forEach(...)` for one keyword, appending to `start`. */
  function Resegment(start: Acc, parts: seq<Part>, keyword: String, technical: bool, split: Splitter, search: Searcher)
    : Acc
    decreases |parts|
  {
    if parts == [] then start
    else PartStep(Resegment(start, parts[..|parts| - 1], keyword, technical, split, search),
                  parts[|parts| - 1], keyword, technical, split, search)
  }

  /** `allKeywords.forEach(...)`: each keyword re-segments the parts of the one before. */
  function ApplyKeywords(start: Acc, kws: seq<String>, keywords: Keywords, split: Splitter, search: Searcher): Acc
    decreases |kws|
  {
    if kws == [] then start
    else
      var acc := ApplyKeywords(start, kws[..|kws| - 1], keywords, split, search);
      var keyword := kws[|kws| - 1];
      Resegment(Acc([], acc.counter), acc.parts, keyword, IsTechnical(keywords, keyword), split, search)
  }

  /** The parts of one line, starting from `[line]` and key number `counter`. */
  function HighlightLine(line: String, keywords: Keywords, split: Splitter, search: Searcher, counter: nat): Acc {
    ApplyKeywords(Acc([Plain(line)], counter), AllKeywords(keywords), keywords, split, search)
  }

  /** The rendered lines and the key counter after them. */
  datatype Rendered = Rendered(lines: seq<RenderedLine>, counter: nat)

  /** `lines.map(...)` over the first lines of `n`; a line break follows all but the last of the `n`. */
  function RenderLines(lines: seq<String>, n: nat, keywords: Keywords, split: Splitter, search: Searcher): Rendered
    decreases |lines|
  {
    if lines == [] then Rendered([], 0)
    else
      var prev := RenderLines(lines[..|lines| - 1], n, keywords, split, search);
      var a := HighlightLine(lines[|lines| - 1], keywords, split, search, prev.counter);
      Rendered(prev.lines + [RenderedLine(a.parts, |lines| - 1 < n - 1)], a.counter)
  }

  /** `highlightKeywords`; `None` keywords is a missing keywords object. */
  function Highlight(text: String, keywords: Option<Keywords>, split: Splitter, search: Searcher): Highlighted {
    if keywords.None? || text == [] then Unchanged(text)
    else
      var lines := SplitOn(text, '\n');
      Lines(RenderLines(lines, |lines|, keywords.value, split, search).lines)
  }

  // ---- the loops ----

  /** `splitParts.forEach(...)` for the pieces of one plain part. */
  method PushPieces(newParts: seq<Part>, counter: nat, pieces: seq<String>, keyword: String, technical: bool,
                    search: Searcher)
    returns (parts: seq<Part>, counterOut: nat)
    ensures var p := SplitPieces(Pass(newParts, counter, 0), pieces, keyword, technical, search);
      parts == p.parts && counterOut == p.counter
  {
    parts, counterOut := newParts, counter;
    var lastIndex: nat := 0;
    var i := 0;
    while i < |pieces|
      invariant 0 <= i <= |pieces|
      invariant Pass(parts, counterOut, lastIndex)
             == SplitPieces(Pass(newParts, counter, 0), pieces[..i], keyword, technical, search)
    {
      var piece := pieces[i];
      assert pieces[..i + 1][..i] == pieces[..i];
      var t := RegexTest(search, keyword, piece, lastIndex);
      lastIndex := t.lastIndex;
      if t.hit {
        parts := parts + [Mark(piece, keyword, technical, counterOut)];
        counterOut := counterOut + 1;
      } else if piece != [] {
        parts := parts + [Plain(piece)];
      }
      i := i + 1;
    }
    assert pieces[..i] == pieces;
  }

  /** The `allKeywords.forEach` body: re-segment every part for one keyword. */
  method ApplyKeyword(parts: seq<Part>, counter: nat, keyword: String, technical: bool, split: Splitter,
                      search: Searcher)
    returns (newParts: seq<Part>, counterOut: nat)
    ensures Acc(newParts, counterOut) == Resegment(Acc([], counter), parts, keyword, technical, split, search)
  {
    newParts, counterOut := [], counter;
    var i := 0;
    while i < |parts|
      invariant 0 <= i <= |parts|
      invariant Acc(newParts, counterOut) == Resegment(Acc([], counter), parts[..i], keyword, technical, split, search)
    {
      var part := parts[i];
      assert parts[..i + 1][..i] == parts[..i];
      match part {
        case Plain(s) =>
          newParts, counterOut := PushPieces(newParts, counterOut, split(keyword, s), keyword, technical, search);
        case Mark(_, _, _, _) =>
          newParts := newParts + [part];
      }
      i := i + 1;
    }
    assert parts[..i] == parts;
  }

  /** The `lines.map` callback: one line through every keyword. */
  method RenderLine(line: String, keywords: Keywords, split: Splitter, search: Searcher, counter: nat)
    returns (parts: seq<Part>, counterOut: nat)
    ensures Acc(parts, counterOut) == HighlightLine(line, keywords, split, search, counter)
  {
    var all := AllKeywords(keywords);
    parts, counterOut := [Plain(line)], counter;
    var i := 0;
    while i < |all|
      invariant 0 <= i <= |all|
      invariant Acc(parts, counterOut) == ApplyKeywords(Acc([Plain(line)], counter), all[..i], keywords, split, search)
    {
      var keyword := all[i];
      assert all[..i + 1][..i] == all[..i];
      assert ApplyKeywords(Acc([Plain(line)], counter), all[..i + 1], keywords, split, search)
        == Resegment(Acc([], counterOut), parts, keyword, IsTechnical(keywords, keyword), split, search);
      parts, counterOut := ApplyKeyword(parts, counterOut, keyword, IsTechnical(keywords, keyword), split, search);
      i := i + 1;
    }
    assert all[..i] == all;
  }

  /** `highlightKeywords(text, keywords)` */
  method HighlightKeywords(text: String, keywords: Option<Keywords>, split: Splitter, search: Searcher)
    returns (r: Highlighted)
    ensures r == Highlight(text, keywords, split, search)
  {
    if keywords.None? || text == [] {
      return Unchanged(text);
    }
    var lines := SplitOn(text, '\n');
    var globalCounter: nat := 0;
    var rendered: seq<RenderedLine> := [];
    var lineIdx := 0;
    while lineIdx < |lines|
      invariant 0 <= lineIdx <= |lines|
      invariant Rendered(rendered, globalCounter) == RenderLines(lines[..lineIdx], |lines|, keywords.value, split, search)
    {
      assert lines[..lineIdx + 1][..lineIdx] == lines[..lineIdx];
      var parts;
      parts, globalCounter := RenderLine(lines[lineIdx], keywords.value, split, search, globalCounter);
      rendered := rendered + [RenderedLine(parts, lineIdx < |lines| - 1)];
      lineIdx := lineIdx + 1;
    }
    assert lines[..lineIdx] == lines;
    return Lines(rendered);
  }


  // ---- one element per line, and the line breaks ----

  /**
   * Line `i` of the output is line `i` of the input, highlighted from the key counter
   * the lines before it leave, and followed by a break unless it is the last of `n`.
   */
  lemma {:induction false} RenderLinesShape(lines: seq<String>, n: nat, keywords: Keywords, split: Splitter,
                                            search: Searcher)
    ensures var r := RenderLines(lines, n, keywords, split, search);
      |r.lines| == |lines|
      && forall i :: 0 <= i < |lines| ==>
           r.lines[i] == RenderedLine(HighlightLine(lines[i], keywords, split, search,
                                                    RenderLines(lines[..i], n, keywords, split, search).counter).parts,
                                      i < n - 1)
    decreases |lines|
  {
    if lines != [] {
      var init := lines[..|lines| - 1];
      RenderLinesShape(init, n, keywords, split, search);
      var prev := RenderLines(init, n, keywords, split, search);
      var r := RenderLines(lines, n, keywords, split, search);
      var last := HighlightLine(lines[|lines| - 1], keywords, split, search, prev.counter);
      assert r.lines == prev.lines + [RenderedLine(last.parts, |lines| - 1 < n - 1)];
      forall i | 0 <= i < |lines|
        ensures r.lines[i] == RenderedLine(HighlightLine(lines[i], keywords, split, search,
                                                         RenderLines(lines[..i], n, keywords, split, search).counter).parts,
                                           i < n - 1)
      {
        if i < |init| {
          assert init[..i] == lines[..i];
          assert r.lines[i] == prev.lines[i];
        } else {
          assert lines[..i] == init;
        }
      }
    }
  }

  /**
   * The text comes back unchanged exactly when the keywords are missing or the text is
   * empty; otherwise there is one element per line, each but the last followed by a break.
   */
  lemma HighlightShape(text: String, keywords: Option<Keywords>, split: Splitter, search: Searcher)
    ensures var r := Highlight(text, keywords, split, search);
      (r.Unchanged? <==> keywords.None? || text == [])
      && (r.Unchanged? ==> r.text == text)
      && (r.Lines? ==>
            |r.lines| == |SplitOn(text, '\n')|
            && forall i :: 0 <= i < |r.lines| ==> (r.lines[i].lineBreak <==> i < |r.lines| - 1))
  {
    if keywords.Some? && text != [] {
      var lines := SplitOn(text, '\n');
      RenderLinesShape(lines, |lines|, keywords.value, split, search);
    }
  }

  // ---- nothing of the text is lost ----

  /** The pieces glued back together. */
  function Concat(pieces: seq<String>): String
    decreases |pieces|
  {
    if pieces == [] then [] else Concat(pieces[..|pieces| - 1]) + pieces[|pieces| - 1]
  }

  /** The text the parts display, spans included. */
  function TextOf(parts: seq<Part>): String
    decreases |parts|
  {
    if parts == [] then [] else TextOf(parts[..|parts| - 1]) + parts[|parts| - 1].text
  }

  function LineText(line: RenderedLine): String {
    TextOf(line.parts)
  }

  /** Splitting a string by a pattern with a capture group keeps every character: the pieces glue back to it. */
  ghost predicate SplitKeepsText(split: Splitter) {
    forall keyword, s :: Concat(split(keyword, s)) == s
  }

  lemma TextOfSnoc(parts: seq<Part>, p: Part)
    ensures TextOf(parts + [p]) == TextOf(parts) + p.text
  {
    assert (parts + [p])[..|parts|] == parts;
  }

  lemma {:induction false} SplitPiecesText(start: Pass, pieces: seq<String>, keyword: String, technical: bool,
                                           search: Searcher)
    ensures TextOf(SplitPieces(start, pieces, keyword, technical, search).parts) == TextOf(start.parts) + Concat(pieces)
    decreases |pieces|
  {
    if pieces == [] {
      assert TextOf(start.parts) + [] == TextOf(start.parts);
    } else {
      var init := pieces[..|pieces| - 1];
      var piece := pieces[|pieces| - 1];
      var prev := SplitPieces(start, init, keyword, technical, search);
      SplitPiecesText(start, init, keyword, technical, search);
      var t := RegexTest(search, keyword, piece, prev.lastIndex);
      if t.hit {
        TextOfSnoc(prev.parts, Mark(piece, keyword, technical, prev.counter));
      } else if piece != [] {
        TextOfSnoc(prev.parts, Plain(piece));
      } else {
        assert TextOf(prev.parts) + piece == TextOf(prev.parts);
      }
      assert TextOf(start.parts) + Concat(init) + piece == TextOf(start.parts) + (Concat(init) + piece);
    }
  }

  lemma PartStepText(acc: Acc, part: Part, keyword: String, technical: bool, split: Splitter, search: Searcher)
    requires SplitKeepsText(split)
    ensures TextOf(PartStep(acc, part, keyword, technical, split, search).parts) == TextOf(acc.parts) + part.text
  {
    match part {
      case Plain(s) =>
        SplitPiecesText(Pass(acc.parts, acc.counter, 0), split(keyword, s), keyword, technical, search);
      case Mark(_, _, _, _) =>
        TextOfSnoc(acc.parts, part);
    }
  }

  lemma {:induction false} ResegmentText(start: Acc, parts: seq<Part>, keyword: String, technical: bool,
                                         split: Splitter, search: Searcher)
    requires SplitKeepsText(split)
    ensures TextOf(Resegment(start, parts, keyword, technical, split, search).parts)
         == TextOf(start.parts) + TextOf(parts)
    decreases |parts|
  {
    if parts == [] {
      assert TextOf(start.parts) + [] == TextOf(start.parts);
    } else {
      var init := parts[..|parts| - 1];
      var part := parts[|parts| - 1];
      ResegmentText(start, init, keyword, technical, split, search);
      PartStepText(Resegment(start, init, keyword, technical, split, search), part, keyword, technical, split, search);
      assert TextOf(start.parts) + TextOf(init) + part.text == TextOf(start.parts) + (TextOf(init) + part.text);
    }
  }

  lemma {:induction false} ApplyKeywordsText(start: Acc, kws: seq<String>, keywords: Keywords, split: Splitter,
                                             search: Searcher)
    requires SplitKeepsText(split)
    ensures TextOf(ApplyKeywords(start, kws, keywords, split, search).parts) == TextOf(start.parts)
    decreases |kws|
  {
    if kws != [] {
      var acc := ApplyKeywords(start, kws[..|kws| - 1], keywords, split, search);
      var keyword := kws[|kws| - 1];
      ApplyKeywordsText(start, kws[..|kws| - 1], keywords, split, search);
      ResegmentText(Acc([], acc.counter), acc.parts, keyword, IsTechnical(keywords, keyword), split, search);
      assert TextOf([]) + TextOf(acc.parts) == TextOf(acc.parts);
    }
  }

  /** Highlighting a line keeps its text, provided splitting does. */
  lemma HighlightLineText(line: String, keywords: Keywords, split: Splitter, search: Searcher, counter: nat)
    requires SplitKeepsText(split)
    ensures TextOf(HighlightLine(line, keywords, split, search, counter).parts) == line
  {
    ApplyKeywordsText(Acc([Plain(line)], counter), AllKeywords(keywords), keywords, split, search);
    TextOfSnoc([], Plain(line));
    assert [] + [Plain(line)] == [Plain(line)];
    assert TextOf([]) + line == line;
  }

  /** The displayed text of the lines, joined by line breaks, is the input text. */
  lemma HighlightKeepsText(text: String, keywords: Option<Keywords>, split: Splitter, search: Searcher)
    requires SplitKeepsText(split)
    ensures var r := Highlight(text, keywords, split, search);
      r.Unchanged? || Join(Map(r.lines, LineText), ['\n']) == text
  {
    var r := Highlight(text, keywords, split, search);
    if r.Lines? {
      var lines := SplitOn(text, '\n');
      RenderLinesShape(lines, |lines|, keywords.value, split, search);
      forall i | 0 <= i < |lines|
        ensures LineText(r.lines[i]) == lines[i]
      {
        HighlightLineText(lines[i], keywords.value, split, search,
                          RenderLines(lines[..i], |lines|, keywords.value, split, search).counter);
      }
      assert Map(r.lines, LineText) == lines;
      SplitJoin(text, '\n');
    }
  }

  // ---- no empty plain text once a keyword has run ----

  predicate NoEmptyPlain(parts: seq<Part>) {
    forall i :: 0 <= i < |parts| && parts[i].Plain? ==> parts[i].text != []
  }

  lemma {:induction false} SplitPiecesNoEmpty(start: Pass, pieces: seq<String>, keyword: String, technical: bool,
                                              search: Searcher)
    requires NoEmptyPlain(start.parts)
    ensures NoEmptyPlain(SplitPieces(start, pieces, keyword, technical, search).parts)
    decreases |pieces|
  {
    if pieces != [] {
      SplitPiecesNoEmpty(start, pieces[..|pieces| - 1], keyword, technical, search);
    }
  }

  /** One keyword's pass leaves no empty plain part, whatever parts it was given. */
  lemma {:induction false} ResegmentNoEmpty(start: Acc, parts: seq<Part>, keyword: String, technical: bool,
                                            split: Splitter, search: Searcher)
    requires NoEmptyPlain(start.parts)
    ensures NoEmptyPlain(Resegment(start, parts, keyword, technical, split, search).parts)
    decreases |parts|
  {
    if parts != [] {
      var prev := Resegment(start, parts[..|parts| - 1], keyword, technical, split, search);
      ResegmentNoEmpty(start, parts[..|parts| - 1], keyword, technical, split, search);
      match parts[|parts| - 1] {
        case Plain(s) =>
          SplitPiecesNoEmpty(Pass(prev.parts, prev.counter, 0), split(keyword, s), keyword, technical, search);
        case Mark(_, _, _, _) =>
      }
    }
  }

  /**
   * With at least one keyword no line holds an empty plain part; with none, a line is
   * its own single plain part.
   */
  lemma HighlightLineNoEmpty(line: String, keywords: Keywords, split: Splitter, search: Searcher, counter: nat)
    ensures var r := HighlightLine(line, keywords, split, search, counter);
      (AllKeywords(keywords) != [] ==> NoEmptyPlain(r.parts))
      && (AllKeywords(keywords) == [] ==> r.parts == [Plain(line)] && r.counter == counter)
  {
    var kws := AllKeywords(keywords);
    if kws != [] {
      var acc := ApplyKeywords(Acc([Plain(line)], counter), kws[..|kws| - 1], keywords, split, search);
      var keyword := kws[|kws| - 1];
      ResegmentNoEmpty(Acc([], acc.counter), acc.parts, keyword, IsTechnical(keywords, keyword), split, search);
    }
  }

  // ---- spans, once made, survive the later keywords ----

  lemma PrefixKeeps(a: seq<Part>, b: seq<Part>)
    requires a <= b
    ensures forall x :: x in a ==> x in b
  {
    forall x | x in a
      ensures x in b
    {
      var j :| 0 <= j < |a| && a[j] == x;
      assert b[j] == x;
    }
  }

  lemma {:induction false} SplitPiecesExtends(start: Pass, pieces: seq<String>, keyword: String, technical: bool,
                                              search: Searcher)
    ensures var r := SplitPieces(start, pieces, keyword, technical, search);
      start.parts <= r.parts && start.counter <= r.counter
    decreases |pieces|
  {
    if pieces != [] {
      SplitPiecesExtends(start, pieces[..|pieces| - 1], keyword, technical, search);
    }
  }

  /** Every span among the parts given to one keyword's pass is among its output. */
  lemma {:induction false} ResegmentKeepsMarks(start: Acc, parts: seq<Part>, keyword: String, technical: bool,
                                               split: Splitter, search: Searcher)
    ensures var r := Resegment(start, parts, keyword, technical, split, search);
      start.parts <= r.parts
      && forall i :: 0 <= i < |parts| && parts[i].Mark? ==> parts[i] in r.parts
    decreases |parts|
  {
    if parts != [] {
      var init := parts[..|parts| - 1];
      var part := parts[|parts| - 1];
      var prev := Resegment(start, init, keyword, technical, split, search);
      var r := Resegment(start, parts, keyword, technical, split, search);
      ResegmentKeepsMarks(start, init, keyword, technical, split, search);
      match part {
        case Plain(s) =>
          SplitPiecesExtends(Pass(prev.parts, prev.counter, 0), split(keyword, s), keyword, technical, search);
        case Mark(_, _, _, _) =>
          assert r.parts == prev.parts + [part];
      }
      PrefixKeeps(prev.parts, r.parts);
      forall i | 0 <= i < |parts| && parts[i].Mark?
        ensures parts[i] in r.parts
      {
        if i < |init| {
          assert init[i] == parts[i];
        }
      }
    }
  }

  /** A span present after the first `k` keywords is still present after all of them. */
  lemma {:induction false} EarlierSpansSurvive(start: Acc, kws: seq<String>, k: nat, keywords: Keywords,
                                               split: Splitter, search: Searcher)
    requires k <= |kws|
    ensures forall m :: m in ApplyKeywords(start, kws[..k], keywords, split, search).parts && m.Mark? ==>
              m in ApplyKeywords(start, kws, keywords, split, search).parts
    decreases |kws|
  {
    if k < |kws| {
      var init := kws[..|kws| - 1];
      assert init[..k] == kws[..k];
      EarlierSpansSurvive(start, init, k, keywords, split, search);
      var acc := ApplyKeywords(start, init, keywords, split, search);
      var keyword := kws[|kws| - 1];
      ResegmentKeepsMarks(Acc([], acc.counter), acc.parts, keyword, IsTechnical(keywords, keyword), split, search);
      forall m | m in acc.parts && m.Mark?
        ensures m in ApplyKeywords(start, kws, keywords, split, search).parts
      {
        var j :| 0 <= j < |acc.parts| && acc.parts[j] == m;
      }
    } else {
      assert kws[..k] == kws;
    }
  }

  // ---- each span names its keyword and whether that keyword is technical ----

  /** Every span names one of the keywords, and is technical exactly when that keyword is in the technical list. */
  predicate SpansStyled(parts: seq<Part>, keywords: Keywords) {
    forall i :: 0 <= i < |parts| && parts[i].Mark? ==>
      parts[i].keyword in AllKeywords(keywords) && (parts[i].technical <==> IsTechnical(keywords, parts[i].keyword))
  }

  lemma {:induction false} SplitPiecesStyled(start: Pass, pieces: seq<String>, keyword: String, technical: bool,
                                             search: Searcher, keywords: Keywords)
    requires SpansStyled(start.parts, keywords)
    requires keyword in AllKeywords(keywords) && technical == IsTechnical(keywords, keyword)
    ensures SpansStyled(SplitPieces(start, pieces, keyword, technical, search).parts, keywords)
    decreases |pieces|
  {
    if pieces != [] {
      SplitPiecesStyled(start, pieces[..|pieces| - 1], keyword, technical, search, keywords);
    }
  }

  lemma {:induction false} ResegmentStyled(start: Acc, parts: seq<Part>, keyword: String, technical: bool,
                                           split: Splitter, search: Searcher, keywords: Keywords)
    requires SpansStyled(start.parts, keywords) && SpansStyled(parts, keywords)
    requires keyword in AllKeywords(keywords) && technical == IsTechnical(keywords, keyword)
    ensures SpansStyled(Resegment(start, parts, keyword, technical, split, search).parts, keywords)
    decreases |parts|
  {
    if parts != [] {
      var init := parts[..|parts| - 1];
      var prev := Resegment(start, init, keyword, technical, split, search);
      assert SpansStyled(init, keywords) by {
        forall i | 0 <= i < |init| ensures init[i] == parts[i] { }
      }
      ResegmentStyled(start, init, keyword, technical, split, search, keywords);
      match parts[|parts| - 1] {
        case Plain(s) =>
          SplitPiecesStyled(Pass(prev.parts, prev.counter, 0), split(keyword, s), keyword, technical, search, keywords);
        case Mark(_, _, _, _) =>
      }
    }
  }

  lemma {:induction false} ApplyKeywordsStyled(start: Acc, kws: seq<String>, keywords: Keywords, split: Splitter,
                                               search: Searcher)
    requires SpansStyled(start.parts, keywords)
    requires forall kw :: kw in kws ==> kw in AllKeywords(keywords)
    ensures SpansStyled(ApplyKeywords(start, kws, keywords, split, search).parts, keywords)
    decreases |kws|
  {
    if kws != [] {
      var init := kws[..|kws| - 1];
      var acc := ApplyKeywords(start, init, keywords, split, search);
      var keyword := kws[|kws| - 1];
      ApplyKeywordsStyled(start, init, keywords, split, search);
      ResegmentStyled(Acc([], acc.counter), acc.parts, keyword, IsTechnical(keywords, keyword), split, search,
                      keywords);
    }
  }

  /** Every span of a line names one of the keywords and is technical exactly when its keyword is. */
  lemma HighlightLineStyled(line: String, keywords: Keywords, split: Splitter, search: Searcher, counter: nat)
    ensures SpansStyled(HighlightLine(line, keywords, split, search, counter).parts, keywords)
  {
    ApplyKeywordsStyled(Acc([Plain(line)], counter), AllKeywords(keywords), keywords, split, search);
  }

  // ---- the span keys are unique ----

  predicate KeysIn(parts: seq<Part>, lo: nat, hi: nat) {
    forall i :: 0 <= i < |parts| && parts[i].Mark? ==> lo <= parts[i].key < hi
  }

  predicate KeysDistinct(parts: seq<Part>) {
    forall i, j :: 0 <= i < j < |parts| && parts[i].Mark? && parts[j].Mark? ==> parts[i].key != parts[j].key
  }

  /** The pieces of one part extend the parts with spans numbered from the counter on, each once. */
  lemma {:induction false} SplitPiecesKeys(start: Pass, pieces: seq<String>, keyword: String, technical: bool,
                                           search: Searcher, lo: nat)
    requires lo <= start.counter && KeysIn(start.parts, lo, start.counter) && KeysDistinct(start.parts)
    ensures var r := SplitPieces(start, pieces, keyword, technical, search);
      start.parts <= r.parts && start.counter <= r.counter
      && KeysIn(r.parts, lo, r.counter) && KeysDistinct(r.parts)
      && forall i :: |start.parts| <= i < |r.parts| && r.parts[i].Mark? ==> start.counter <= r.parts[i].key
    decreases |pieces|
  {
    if pieces != [] {
      SplitPiecesKeys(start, pieces[..|pieces| - 1], keyword, technical, search, lo);
    }
  }

  /** Some span of `parts` has key `k`. */
  predicate HasKey(parts: seq<Part>, k: nat) {
    exists j :: 0 <= j < |parts| && parts[j].Mark? && parts[j].key == k
  }

  /** Every span of `out` keyed below `c` has its key among the spans of `parts`. */
  predicate OldKeysKnown(out: seq<Part>, parts: seq<Part>, c: nat) {
    forall i :: 0 <= i < |out| && out[i].Mark? && out[i].key < c ==> HasKey(parts, out[i].key)
  }

  lemma HasKeyPrefix(init: seq<Part>, parts: seq<Part>, k: nat)
    requires init <= parts && HasKey(init, k)
    ensures HasKey(parts, k)
  {
    var j :| 0 <= j < |init| && init[j].Mark? && init[j].key == k;
    assert parts[j] == init[j];
  }

  /**
   * One keyword's pass over parts with distinct keys below `c` gives parts with distinct
   * keys, and every key below `c` in the output is the key of one of the input spans.
   */
  lemma {:induction false} ResegmentKeys(c: nat, parts: seq<Part>, keyword: String, technical: bool,
                                         split: Splitter, search: Searcher, lo: nat)
    requires lo <= c && KeysIn(parts, lo, c) && KeysDistinct(parts)
    ensures var r := Resegment(Acc([], c), parts, keyword, technical, split, search);
      c <= r.counter && KeysIn(r.parts, lo, r.counter) && KeysDistinct(r.parts)
      && OldKeysKnown(r.parts, parts, c)
    decreases |parts|
  {
    if parts != [] {
      var init := parts[..|parts| - 1];
      var part := parts[|parts| - 1];
      var prev := Resegment(Acc([], c), init, keyword, technical, split, search);
      var r := Resegment(Acc([], c), parts, keyword, technical, split, search);
      assert KeysIn(init, lo, c) && KeysDistinct(init) by {
        forall i | 0 <= i < |init| ensures init[i] == parts[i] { }
      }
      ResegmentKeys(c, init, keyword, technical, split, search, lo);
      match part {
        case Plain(s) =>
          SplitPiecesKeys(Pass(prev.parts, prev.counter, 0), split(keyword, s), keyword, technical, search, lo);
          forall i | 0 <= i < |r.parts| && r.parts[i].Mark? && r.parts[i].key < c
            ensures HasKey(parts, r.parts[i].key)
          {
            assert i < |prev.parts| && r.parts[i] == prev.parts[i];
            HasKeyPrefix(init, parts, prev.parts[i].key);
          }
        case Mark(_, _, _, _) =>
          assert r.parts == prev.parts + [part];
          forall i | 0 <= i < |prev.parts| && prev.parts[i].Mark?
            ensures prev.parts[i].key != part.key
          {
            if prev.parts[i].key < c {
              var j :| 0 <= j < |init| && init[j].Mark? && init[j].key == prev.parts[i].key;
              assert parts[j] == init[j];
            }
          }
          forall i | 0 <= i < |r.parts| && r.parts[i].Mark? && r.parts[i].key < c
            ensures HasKey(parts, r.parts[i].key)
          {
            if i < |prev.parts| {
              assert r.parts[i] == prev.parts[i];
              HasKeyPrefix(init, parts, prev.parts[i].key);
            } else {
              assert r.parts[i] == parts[|parts| - 1];
            }
          }
      }
    }
  }

  lemma {:induction false} ApplyKeywordsKeys(start: Acc, kws: seq<String>, keywords: Keywords, split: Splitter,
                                             search: Searcher, lo: nat)
    requires lo <= start.counter && KeysIn(start.parts, lo, start.counter) && KeysDistinct(start.parts)
    ensures var r := ApplyKeywords(start, kws, keywords, split, search);
      start.counter <= r.counter && KeysIn(r.parts, lo, r.counter) && KeysDistinct(r.parts)
    decreases |kws|
  {
    if kws != [] {
      var init := kws[..|kws| - 1];
      var acc := ApplyKeywords(start, init, keywords, split, search);
      var keyword := kws[|kws| - 1];
      ApplyKeywordsKeys(start, init, keywords, split, search, lo);
      ResegmentKeys(acc.counter, acc.parts, keyword, IsTechnical(keywords, keyword), split, search, lo);
    }
  }

  /** The spans of a line get distinct keys, from the counter it starts with up to the one it leaves. */
  lemma HighlightLineKeys(line: String, keywords: Keywords, split: Splitter, search: Searcher, counter: nat)
    ensures var r := HighlightLine(line, keywords, split, search, counter);
      counter <= r.counter && KeysIn(r.parts, counter, r.counter) && KeysDistinct(r.parts)
  {
    ApplyKeywordsKeys(Acc([Plain(line)], counter), AllKeywords(keywords), keywords, split, search, counter);
  }

  /**
   * Within each line the keys are distinct and below `hi`, and every key of a line is
   * below every key of a later line.
   */
  predicate LinesKeyed(ls: seq<RenderedLine>, hi: nat) {
    (forall i :: 0 <= i < |ls| ==> KeysIn(ls[i].parts, 0, hi) && KeysDistinct(ls[i].parts))
    && forall i, j, x, y ::
         0 <= i < j < |ls| && 0 <= x < |ls[i].parts| && 0 <= y < |ls[j].parts|
         && ls[i].parts[x].Mark? && ls[j].parts[y].Mark?
         ==> ls[i].parts[x].key < ls[j].parts[y].key
  }

  lemma LinesKeyedSnoc(ls: seq<RenderedLine>, lo: nat, parts: seq<Part>, hi: nat, lineBreak: bool)
    requires LinesKeyed(ls, lo) && lo <= hi && KeysIn(parts, lo, hi) && KeysDistinct(parts)
    ensures LinesKeyed(ls + [RenderedLine(parts, lineBreak)], hi)
  {
    var r := ls + [RenderedLine(parts, lineBreak)];
    forall i | 0 <= i < |r|
      ensures KeysIn(r[i].parts, 0, hi) && KeysDistinct(r[i].parts)
    {
      if i < |ls| {
        assert r[i] == ls[i];
      }
    }
    forall i, j, x, y |
      0 <= i < j < |r| && 0 <= x < |r[i].parts| && 0 <= y < |r[j].parts|
      && r[i].parts[x].Mark? && r[j].parts[y].Mark?
      ensures r[i].parts[x].key < r[j].parts[y].key
    {
      assert r[i] == ls[i];
      if j < |ls| {
        assert r[j] == ls[j];
      }
    }
  }

  lemma {:induction false} RenderLinesKeys(lines: seq<String>, n: nat, keywords: Keywords, split: Splitter,
                                           search: Searcher)
    ensures var r := RenderLines(lines, n, keywords, split, search);
      LinesKeyed(r.lines, r.counter)
    decreases |lines|
  {
    if lines != [] {
      var init := lines[..|lines| - 1];
      var prev := RenderLines(init, n, keywords, split, search);
      RenderLinesKeys(init, n, keywords, split, search);
      var line := HighlightLine(lines[|lines| - 1], keywords, split, search, prev.counter);
      HighlightLineKeys(lines[|lines| - 1], keywords, split, search, prev.counter);
      LinesKeyedSnoc(prev.lines, prev.counter, line.parts, line.counter, |lines| - 1 < n - 1);
    }
  }

  /** No two spans anywhere in the output share a key. */
  lemma HighlightKeysUnique(text: String, keywords: Option<Keywords>, split: Splitter, search: Searcher)
    ensures var r := Highlight(text, keywords, split, search);
      r.Lines? ==>
        forall i, j, a, b ::
          0 <= i < |r.lines| && 0 <= j < |r.lines| && 0 <= a < |r.lines[i].parts| && 0 <= b < |r.lines[j].parts|
          && r.lines[i].parts[a].Mark? && r.lines[j].parts[b].Mark? && (i, a) != (j, b)
          ==> r.lines[i].parts[a].key != r.lines[j].parts[b].key
  {
    if keywords.Some? && text != [] {
      var lines := SplitOn(text, '\n');
      var r := RenderLines(lines, |lines|, keywords.value, split, search);
      RenderLinesKeys(lines, |lines|, keywords.value, split, search);
      forall i, j, x, y |
        0 <= i < |r.lines| && 0 <= j < |r.lines| && 0 <= x < |r.lines[i].parts| && 0 <= y < |r.lines[j].parts|
        && r.lines[i].parts[x].Mark? && r.lines[j].parts[y].Mark? && (i, x) != (j, y)
        ensures r.lines[i].parts[x].key != r.lines[j].parts[y].key
      {
        if i == j {
          assert KeysDistinct(r.lines[i].parts);
        }
      }
    }
  }
}
