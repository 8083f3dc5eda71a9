/** The tail of HybridSearch.query: the points the store returned, in its
    order, are filtered by score and rendered as one labelled text block each;
    the text is stripped, or replaced by a fixed sentence when nothing is kept. */
module HybridSearch {

  /** One entry of `responses.points`: its fused score and its payload. */
  datatype ScoredPoint = ScoredPoint(score: real, payload: map<string, string>)

  /** What query returns when no point reaches the threshold. */
  const NoResults: string := "No relevant documents found."

  // ---------------------------------------------------------------------------
  // Numbers as text
  // ---------------------------------------------------------------------------

  function DigitChar(d: nat): char
    requires d < 10
  {
    "0123456789"[d]
  }

  predicate IsDigit(c: char)
  {
    '0' <= c <= '9'
  }

  function DigitValue(c: char): nat
    requires IsDigit(c)
  {
    (c as int - '0' as int) as nat
  }

  /** `str(n)` for a natural number: its decimal digits, no leading zero. */
  function Decimal(n: nat): (r: string)
    ensures r != [] && forall k :: 0 <= k < |r| ==> IsDigit(r[k])
    ensures |r| > 1 ==> r[0] != '0'
  {
    if n < 10 then [DigitChar(n)] else Decimal(n / 10) + [DigitChar(n % 10)]
  }

  /** The number a string of digits spells. */
  function ParseDecimal(s: string): nat
    requires forall k :: 0 <= k < |s| ==> IsDigit(s[k])
  {
    if s == [] then 0 else 10 * ParseDecimal(s[..|s| - 1]) + DigitValue(s[|s| - 1])
  }

  /** Reading back a rendered number gives the number. */
  lemma {:induction false} DecimalRoundTrip(n: nat)
    ensures ParseDecimal(Decimal(n)) == n
  {
    var r := Decimal(n);
    if n >= 10 {
      DecimalRoundTrip(n / 10);
      assert r[..|r| - 1] == Decimal(n / 10);
    }
  }

  // ---------------------------------------------------------------------------
  // Blocks
  // ---------------------------------------------------------------------------

  /** `doc.get(key, '')`. */
  function Field(payload: map<string, string>, key: string): string
  {
    if key in payload then payload[key] else ""
  }

  /** The header line of the block for the point at `position` (0-based);
      the label counts from 1. */
  function Header(position: nat): string
  {
    "Document " + Decimal(position + 1) + ":\n"
  }

  /** One labelled line: the caption, ": ", the payload's value and a newline. */
  function Line(caption: string, key: string, payload: map<string, string>): string
  {
    caption + ": " + Field(payload, key) + "\n"
  }

  /** The nine labelled lines of a kept point, in their fixed order, and the
      blank line that closes the block. */
  function Body(payload: map<string, string>): string
  {
    Line("Title", "root_title", payload)
    + Line("Summary", "root_summary", payload)
    + Line("Issue Date", "root_issue_date", payload)
    + Line("Effective Date", "root_effective_date", payload)
    + Line("Chapter Title", "chapter_title", payload)
    + Line("Chapter Summary", "chapter_summary", payload)
    + Line("Section Title", "section_title", payload)
    + Line("Section Summary", "section_summary", payload)
    + Line("Raw Articles", "raw_articles", payload)
    + "\n"
  }

  /** The labels of a block and the payload keys they show, in display order. */
  const BodyTable: seq<(string, string)> := [
    ("Title", "root_title"), ("Summary", "root_summary"),
    ("Issue Date", "root_issue_date"), ("Effective Date", "root_effective_date"),
    ("Chapter Title", "chapter_title"), ("Chapter Summary", "chapter_summary"),
    ("Section Title", "section_title"), ("Section Summary", "section_summary"),
    ("Raw Articles", "raw_articles")]

  /** One line per table entry, in table order. */
  function TableLines(table: seq<(string, string)>, payload: map<string, string>): string
  {
    if table == [] then ""
    else
      var last := table[|table| - 1];
      TableLines(table[..|table| - 1], payload) + Line(last.0, last.1, payload)
  }

  lemma TableLinesSnoc(table: seq<(string, string)>, k: nat, payload: map<string, string>)
    requires 0 < k <= |table|
    ensures TableLines(table[..k], payload)
      == TableLines(table[..k - 1], payload) + Line(table[k - 1].0, table[k - 1].1, payload)
  {
    assert table[..k][..k - 1] == table[..k - 1];
  }

  /** The body of a block is the table's lines in table order, then a blank line. */
  lemma BodyFollowsTable(payload: map<string, string>)
    ensures Body(payload) == TableLines(BodyTable, payload) + "\n"
  {
    var t := BodyTable;
    assert t[0] == ("Title", "root_title") && t[1] == ("Summary", "root_summary");
    assert t[2] == ("Issue Date", "root_issue_date") && t[3] == ("Effective Date", "root_effective_date");
    assert t[4] == ("Chapter Title", "chapter_title") && t[5] == ("Chapter Summary", "chapter_summary");
    assert t[6] == ("Section Title", "section_title") && t[7] == ("Section Summary", "section_summary");
    assert t[8] == ("Raw Articles", "raw_articles");
    LinesOfNineRows(t, payload);
  }

  lemma LinesOfNineRows(t: seq<(string, string)>, p: map<string, string>)
    requires |t| == 9
    ensures TableLines(t, p)
      == Line(t[0].0, t[0].1, p) + Line(t[1].0, t[1].1, p) + Line(t[2].0, t[2].1, p)
      + Line(t[3].0, t[3].1, p) + Line(t[4].0, t[4].1, p) + Line(t[5].0, t[5].1, p)
      + Line(t[6].0, t[6].1, p) + Line(t[7].0, t[7].1, p) + Line(t[8].0, t[8].1, p)
  {
    assert t[..0] == [];
    TableLinesSnoc(t, 1, p);
    var acc := Line(t[0].0, t[0].1, p);
    assert TableLines(t[..1], p) == acc;
    TableLinesSnoc(t, 2, p);
    acc := acc + Line(t[1].0, t[1].1, p);
    assert TableLines(t[..2], p) == acc;
    TableLinesSnoc(t, 3, p);
    acc := acc + Line(t[2].0, t[2].1, p);
    assert TableLines(t[..3], p) == acc;
    TableLinesSnoc(t, 4, p);
    acc := acc + Line(t[3].0, t[3].1, p);
    assert TableLines(t[..4], p) == acc;
    TableLinesSnoc(t, 5, p);
    acc := acc + Line(t[4].0, t[4].1, p);
    assert TableLines(t[..5], p) == acc;
    TableLinesSnoc(t, 6, p);
    acc := acc + Line(t[5].0, t[5].1, p);
    assert TableLines(t[..6], p) == acc;
    TableLinesSnoc(t, 7, p);
    acc := acc + Line(t[6].0, t[6].1, p);
    assert TableLines(t[..7], p) == acc;
    TableLinesSnoc(t, 8, p);
    acc := acc + Line(t[7].0, t[7].1, p);
    assert TableLines(t[..8], p) == acc;
    TableLinesSnoc(t, 9, p);
    assert t[..9] == t;
  }

  /** What one kept point appends to `docs`. */
  function Block(position: nat, payload: map<string, string>): string
  {
    Header(position) + Body(payload)
  }

  /** A header is "Document ", the label's digits, then ":\n". */
  lemma HeaderShape(position: nat)
    ensures |Header(position)| > 10 && Header(position)[..9] == "Document " && IsDigit(Header(position)[9])
  {
    var digits := Decimal(position + 1);
    assert Header(position)[9] == digits[0];
  }

  // ---------------------------------------------------------------------------
  // The loop, as functions of the prefix it has seen
  // ---------------------------------------------------------------------------

  /** The value of `docs` after the loop has seen `points`. */
  function Rendered(points: seq<ScoredPoint>, threshold: real): string
  {
    if points == [] then ""
    else
      var last := |points| - 1;
      Rendered(points[..last], threshold)
      + (if points[last].score >= threshold then Block(last, points[last].payload) else "")
  }

  /** The positions of the points the loop keeps, in response order. */
  function KeptPositions(points: seq<ScoredPoint>, threshold: real): (r: seq<nat>)
    ensures forall j :: 0 <= j < |r| ==> r[j] < |points|
  {
    if points == [] then []
    else
      var last := |points| - 1;
      KeptPositions(points[..last], threshold) + (if points[last].score >= threshold then [last] else [])
  }

  /** The blocks of the given positions, one after the other. */
  function Blocks(points: seq<ScoredPoint>, positions: seq<nat>): string
    requires forall j :: 0 <= j < |positions| ==> positions[j] < |points|
  {
    if positions == [] then ""
    else
      var last := |positions| - 1;
      Blocks(points, positions[..last]) + Block(positions[last], points[positions[last]].payload)
  }

  /** A point is kept exactly when its score reaches the threshold, and the
      kept positions come in response order. */
  lemma {:induction false} KeptPositionsExact(points: seq<ScoredPoint>, threshold: real)
    ensures var kept := KeptPositions(points, threshold);
      && (forall k :: k in kept <==> 0 <= k < |points| && points[k].score >= threshold)
      && (forall i, j :: 0 <= i < j < |kept| ==> kept[i] < kept[j])
  {
    if points != [] {
      var last := |points| - 1;
      KeptPositionsExact(points[..last], threshold);
      var prefix := points[..last];
      assert forall k :: 0 <= k < last ==> prefix[k] == points[k];
    }
  }

  /** `docs` is the blocks of the kept points, labelled with their positions in
      the full response, in response order. */
  lemma {:induction false} RenderedIsKeptBlocks(points: seq<ScoredPoint>, threshold: real)
    ensures Rendered(points, threshold) == Blocks(points, KeptPositions(points, threshold))
  {
    if points != [] {
      var last := |points| - 1;
      var prefix := points[..last];
      var kept := KeptPositions(prefix, threshold);
      RenderedIsKeptBlocks(prefix, threshold);
      BlocksOfPrefix(prefix, points, kept);
      var rendered := Rendered(prefix, threshold);
      LastStep(points, threshold);
      if points[last].score >= threshold {
        BlocksSnoc(points, kept, last);
      }
    }
  }

  /** What the last point of the response adds to `docs` and to the kept positions. */
  lemma LastStep(points: seq<ScoredPoint>, threshold: real)
    requires points != []
    ensures var last := |points| - 1;
      var prefix := points[..last];
      if points[last].score >= threshold then
        && KeptPositions(points, threshold) == KeptPositions(prefix, threshold) + [last]
        && Rendered(points, threshold) == Rendered(prefix, threshold) + Block(last, points[last].payload)
      else
        && KeptPositions(points, threshold) == KeptPositions(prefix, threshold)
        && Rendered(points, threshold) == Rendered(prefix, threshold)
  {
    var last := |points| - 1;
    var prefix := points[..last];
    var kept, rendered := KeptPositions(prefix, threshold), Rendered(prefix, threshold);
    if points[last].score < threshold {
      assert kept + [] == kept && rendered + "" == rendered;
    }
  }

  lemma BlocksSnoc(points: seq<ScoredPoint>, positions: seq<nat>, p: nat)
    requires forall j :: 0 <= j < |positions| ==> positions[j] < |points|
    requires p < |points|
    ensures Blocks(points, positions + [p]) == Blocks(points, positions) + Block(p, points[p].payload)
  {
    var all := positions + [p];
    assert all[..|all| - 1] == positions && all[|all| - 1] == p;
  }

  /** The blocks of positions inside a prefix do not depend on what follows it. */
  lemma {:induction false} BlocksOfPrefix(prefix: seq<ScoredPoint>, points: seq<ScoredPoint>, positions: seq<nat>)
    requires prefix <= points
    requires forall j :: 0 <= j < |positions| ==> positions[j] < |prefix|
    ensures Blocks(prefix, positions) == Blocks(points, positions)
  {
    if positions != [] {
      var last := |positions| - 1;
      BlocksOfPrefix(prefix, points, positions[..last]);
      assert prefix[positions[last]] == points[positions[last]];
    }
  }

  /** Nothing is rendered exactly when no point is kept. */
  lemma {:induction false} RenderedEmptyIffNoneKept(points: seq<ScoredPoint>, threshold: real)
    ensures Rendered(points, threshold) == "" <==> KeptPositions(points, threshold) == []
  {
    if points != [] {
      RenderedEmptyIffNoneKept(points[..|points| - 1], threshold);
    }
  }

  /** When a point is kept, `docs` opens with the header of the first kept one. */
  lemma {:induction false} RenderedOpensWithFirstKept(points: seq<ScoredPoint>, threshold: real)
    requires KeptPositions(points, threshold) != []
    ensures var first := KeptPositions(points, threshold)[0];
      && first < |points|
      && Header(first) <= Rendered(points, threshold)
  {
    var last := |points| - 1;
    var prefix := points[..last];
    assert prefix == points[..last];
    if KeptPositions(prefix, threshold) != [] {
      RenderedOpensWithFirstKept(prefix, threshold);
      var first := KeptPositions(prefix, threshold)[0];
      assert KeptPositions(points, threshold)[0] == first;
    } else {
      RenderedEmptyIffNoneKept(prefix, threshold);
      assert Rendered(points, threshold) == Block(last, points[last].payload);
    }
  }

  // ---------------------------------------------------------------------------
  // str.strip()
  // ---------------------------------------------------------------------------

  /** The characters Python's `str.isspace()` accepts, which `str.strip()` removes. */
  predicate IsSpace(c: char)
  {
    || c == ' ' || c == '\t' || c == '\n' || c == '\r'
    || c == '\U{0B}' || c == '\U{0C}' || c == '\U{1C}' || c == '\U{1D}' || c == '\U{1E}' || c == '\U{1F}'
    || c == '\U{85}' || c == '\U{A0}' || c == '\U{1680}'
    || ('\U{2000}' <= c <= '\U{200A}')
    || c == '\U{2028}' || c == '\U{2029}' || c == '\U{202F}' || c == '\U{205F}' || c == '\U{3000}'
  }

  /** `s` without its leading whitespace. */
  function TrimStart(s: string): (r: string)
    ensures |r| <= |s| && r == s[|s| - |r|..]
    ensures forall k :: 0 <= k < |s| - |r| ==> IsSpace(s[k])
    ensures r == [] || !IsSpace(r[0])
  {
    if s != [] && IsSpace(s[0]) then TrimStart(s[1..]) else s
  }

  /** `s` without its trailing whitespace. */
  function TrimEnd(s: string): (r: string)
    ensures |r| <= |s| && r == s[..|r|]
    ensures forall k :: |r| <= k < |s| ==> IsSpace(s[k])
    ensures r == [] || !IsSpace(r[|r| - 1])
  {
    if s != [] && IsSpace(s[|s| - 1]) then TrimEnd(s[..|s| - 1]) else s
  }

  /** `s.strip()`: the slice of `s` between its leading and its trailing
      whitespace, neither end of which is whitespace. */
  function Strip(s: string): (r: string)
    ensures var start := |s| - |TrimStart(s)|;
      && start + |r| <= |s|
      && r == s[start..start + |r|]
      && (forall k :: 0 <= k < start ==> IsSpace(s[k]))
      && (forall k :: start + |r| <= k < |s| ==> IsSpace(s[k]))
    ensures r == [] || (!IsSpace(r[0]) && !IsSpace(r[|r| - 1]))
  {
    TrimEnd(TrimStart(s))
  }

  /** Stripping a text that opens with a block header keeps the header's
      "Document " and the first digit of its label. */
  lemma StripKeepsHeader(s: string)
    requires |s| > 10 && s[..9] == "Document " && IsDigit(s[9])
    ensures |Strip(s)| >= 10 && Strip(s)[..9] == "Document "
  {
    assert !IsSpace(s[0]) && !IsSpace(s[9]);
    assert TrimStart(s) == s;
  }

  // ---------------------------------------------------------------------------
  // query
  // ---------------------------------------------------------------------------

  /** The filter-and-format loop of query and its return statement, over the
      store's response. */
  method Query(points: seq<ScoredPoint>, threshold: real) returns (r: string)
    ensures KeptPositions(points, threshold) == [] ==> r == NoResults
    ensures KeptPositions(points, threshold) != [] ==>
      && r == Strip(Rendered(points, threshold))
      && |r| >= 10 && r[..9] == "Document "
  {
    var docs := "";
    var i := 0;
    while i < |points|
      invariant 0 <= i <= |points|
      invariant docs == Rendered(points[..i], threshold)
    {
      var response := points[i];
      assert points[..i + 1][..i] == points[..i];
      if response.score >= threshold {
        docs := docs + Block(i, response.payload);
      }
      i := i + 1;
    }
    assert points[..i] == points;
    RenderedEmptyIffNoneKept(points, threshold);
    if docs != "" {
      RenderedOpensWithFirstKept(points, threshold);
      var first := KeptPositions(points, threshold)[0];
      var header := Header(first);
      HeaderShape(first);
      assert docs[..|header|] == header;
      assert docs[..9] == header[..9] && docs[9] == header[9];
      StripKeepsHeader(docs);
      r := Strip(docs);
    } else {
      r := NoResults;
    }
  }
}
