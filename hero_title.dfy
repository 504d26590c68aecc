/** The multi-line hero heading shared by the contact and reservation pages:
    the title is split on "\n" and each line is rendered as its own block span,
    keyed by its position. */
module HeroTitle {
  import opened JsString

  /** One `<span className="block">` of the heading. */
  datatype Span = Span(key: nat, text: string)

  /** `heroTitle.split("\n")`. */
  function TitleLines(title: string): (lines: seq<string>)
    ensures |lines| == Count(title, '\n') + 1
    ensures forall i :: 0 <= i < |lines| ==> '\n' !in lines[i]
  {
    Split(title, '\n')
  }

  /** `heroTitleLines.map((line, index) => <span key={index}>{line}</span>)`. */
  function LineSpans(lines: seq<string>, first: nat): (spans: seq<Span>)
    ensures |spans| == |lines|
    ensures forall i :: 0 <= i < |spans| ==> spans[i] == Span(first + i, lines[i])
  {
    if lines == [] then [] else [Span(first, lines[0])] + LineSpans(lines[1..], first + 1)
  }

  /** The heading's children for a hero title: one span per line of the split
      title, span `i` keyed `i` and showing line `i`. */
  function Heading(title: string): (spans: seq<Span>)
    ensures |spans| == Count(title, '\n') + 1
    ensures forall i :: 0 <= i < |spans| ==> spans[i] == Span(i, TitleLines(title)[i])
  {
    LineSpans(TitleLines(title), 0)
  }

  /** The heading has one span per line, one more than the number of line breaks;
      span `i` carries key `i`, and no span contains a line break. */
  lemma HeadingShape(title: string)
    ensures |Heading(title)| == Count(title, '\n') + 1
    ensures forall i :: 0 <= i < |Heading(title)| ==>
      Heading(title)[i].key == i && '\n' !in Heading(title)[i].text
  {
  }

  /** The span texts, read in order and joined with "\n", reproduce the title:
      nothing of the title is lost, reordered or duplicated. */
  lemma HeadingPreservesTitle(title: string)
    ensures Join(SpanTexts(Heading(title)), '\n') == title
  {
    var lines := TitleLines(title);
    assert SpanTexts(Heading(title)) == lines by {
      SpanTextsOfLines(lines, 0);
    }
    JoinSplit(title, '\n');
  }

  /** A title built from line-break-free lines renders exactly those lines, in order. */
  lemma HeadingOfJoinedLines(lines: seq<string>)
    requires |lines| > 0
    requires forall i :: 0 <= i < |lines| ==> '\n' !in lines[i]
    ensures SpanTexts(Heading(Join(lines, '\n'))) == lines
  {
    SplitJoin(lines, '\n');
    SpanTextsOfLines(lines, 0);
  }

  /** The texts of the spans, in order. */
  function SpanTexts(spans: seq<Span>): (texts: seq<string>)
    ensures |texts| == |spans|
    ensures forall i :: 0 <= i < |spans| ==> texts[i] == spans[i].text
  {
    if spans == [] then [] else [spans[0].text] + SpanTexts(spans[1..])
  }

  lemma {:induction false} SpanTextsOfLines(lines: seq<string>, first: nat)
    ensures SpanTexts(LineSpans(lines, first)) == lines
  {
    if lines != [] {
      SpanTextsOfLines(lines[1..], first + 1);
      assert LineSpans(lines, first)[1..] == LineSpans(lines[1..], first + 1);
      assert lines == [lines[0]] + lines[1..];
    }
  }
}
