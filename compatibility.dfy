/** What get_compatibility does once the page has been fetched: the status
    check, the per-block paragraph extraction and the blank-line join. The
    HTTP request and the HTML parsing are outside the model: a fetched page
    arrives as its status code and the blocks the parser matched. */
module Compatibility {
  import opened Wrappers
  import opened Zodiac

  /** One matched content block: the stripped text of its heading and of its
      paragraph, each missing when the block has none. */
  datatype Block = Block(title: Option<string>, paragraph: Option<string>)

  /** A fetched compatibility page. */
  datatype Response = Response(status: int, blocks: seq<Block>)

  const FetchFailed := "Не удалось получить данные с сайта."
  const NotFound := "Информация о совместимости не найдена."
  const Untitled := "Без заголовка"
  const NoParagraph := "Информация отсутствует."
  const Separator := "\n\n"

  /** Python's `sep.join(parts)`. */
  function Join(parts: seq<string>, sep: string): string
  {
    if |parts| == 0 then ""
    else if |parts| == 1 then parts[0]
    else parts[0] + sep + Join(parts[1..], sep)
  }

  /** Total length of the parts. */
  function TotalLength(parts: seq<string>): nat
  {
    if parts == [] then 0 else |parts[0]| + TotalLength(parts[1..])
  }

  /** Where the k-th part starts in `Join(parts, sep)`. */
  function Offset(parts: seq<string>, sep: string, k: nat): nat
    requires k <= |parts|
  {
    if k == 0 then 0 else |parts[0]| + |sep| + Offset(parts[1..], sep, k - 1)
  }

  /** The joined string holds every part and one separator between neighbours. */
  lemma {:induction false} JoinLength(parts: seq<string>, sep: string)
    requires parts != []
    ensures |Join(parts, sep)| == TotalLength(parts) + (|parts| - 1) * |sep|
  {
    if |parts| > 1 {
      JoinLength(parts[1..], sep);
    }
  }

  /** A slice of the second half of a concatenation. */
  lemma SliceAfterPrefix(a: string, b: string, i: nat, j: nat)
    requires i <= j <= |b|
    ensures (a + b)[|a| + i..|a| + j] == b[i..j]
  {
  }

  /** A joined list of several parts is its first part, the separator, and the
      join of the rest. */
  lemma JoinUnfold(parts: seq<string>, sep: string)
    requires |parts| > 1
    ensures Join(parts, sep) == (parts[0] + sep) + Join(parts[1..], sep)
  {
  }

  /** The k-th part sits at Offset(parts, sep, k) in the joined string. */
  lemma {:induction false} JoinPartAt(parts: seq<string>, sep: string, k: nat)
    requires k < |parts|
    ensures Offset(parts, sep, k) + |parts[k]| <= |Join(parts, sep)|
    ensures Join(parts, sep)[Offset(parts, sep, k)..Offset(parts, sep, k) + |parts[k]|] == parts[k]
  {
    if |parts| == 1 {
    } else if k == 0 {
      JoinUnfold(parts, sep);
    } else {
      JoinUnfold(parts, sep);
      JoinPartAt(parts[1..], sep, k - 1);
      var o := Offset(parts[1..], sep, k - 1);
      assert parts[1..][k - 1] == parts[k];
      SliceAfterPrefix(parts[0] + sep, Join(parts[1..], sep), o, o + |parts[k]|);
    }
  }

  /** Every part but the last is followed by the separator in the joined string. */
  lemma {:induction false} JoinSeparatorAfter(parts: seq<string>, sep: string, k: nat)
    requires k + 1 < |parts|
    ensures Offset(parts, sep, k) + |parts[k]| + |sep| <= |Join(parts, sep)|
    ensures Join(parts, sep)[Offset(parts, sep, k) + |parts[k]|..Offset(parts, sep, k) + |parts[k]| + |sep|] == sep
  {
    JoinUnfold(parts, sep);
    if k == 0 {
      assert Join(parts, sep)[|parts[0]|..|parts[0]| + |sep|] == (parts[0] + sep)[|parts[0]|..];
    } else {
      JoinSeparatorAfter(parts[1..], sep, k - 1);
      var o := Offset(parts[1..], sep, k - 1);
      assert parts[1..][k - 1] == parts[k];
      SliceAfterPrefix(parts[0] + sep, Join(parts[1..], sep), o + |parts[k]|, o + |parts[k]| + |sep|);
    }
  }

  /** The text a block contributes: its paragraph, or the placeholder. */
  function Paragraph(b: Block): string
  {
    b.paragraph.GetOr(NoParagraph)
  }

  /** The paragraphs of the blocks, in document order. */
  function Paragraphs(blocks: seq<Block>): (ps: seq<string>)
    ensures |ps| == |blocks|
    ensures forall k :: 0 <= k < |blocks| ==> ps[k] == Paragraph(blocks[k])
  {
    if blocks == [] then [] else [Paragraph(blocks[0])] + Paragraphs(blocks[1..])
  }

  /** The reading get_compatibility returns for a fetched page. */
  function Reading(page: Response): string
  {
    if page.status != 200 then FetchFailed
    else if page.blocks == [] then NotFound
    else Join(Paragraphs(page.blocks), Separator)
  }

  /** The post-fetch part of get_compatibility: the loop over the matched
      blocks, computing (and discarding) each title and collecting each
      paragraph, then the join. */
  method AssembleReading(page: Response) returns (text: string)
    ensures text == Reading(page)
  {
    if page.status != 200 {
      return FetchFailed;
    }
    if page.blocks == [] {
      return NotFound;
    }
    var details: seq<string> := [];
    var i := 0;
    while i < |page.blocks|
      invariant 0 <= i <= |page.blocks|
      invariant details == Paragraphs(page.blocks[..i])
    {
      var block := page.blocks[i];
      var title := if block.title.Some? then block.title.value else Untitled;
      var paragraph := if block.paragraph.Some? then block.paragraph.value else NoParagraph;
      details := details + [paragraph];
      i := i + 1;
    }
    assert page.blocks[..i] == page.blocks;
    text := Join(details, Separator);
  }

  /** get_compatibility: the combination number selects the page fetched by
      `fetch`; an unregistered label raises before any fetch. */
  method GetCompatibility(maleSign: string, femaleSign: string, fetch: int -> Response)
    returns (r: Result<string, LookupError>)
    ensures r.Err? <==> maleSign !in ZodiacIndexes || femaleSign !in ZodiacIndexes
    ensures r.Err? ==> CombinationNumber(maleSign, femaleSign) == Err(r.error)
    ensures r.Ok? ==> r.value == Reading(fetch(CombinationNumber(maleSign, femaleSign).value))
  {
    var n := CombinationNumber(maleSign, femaleSign);
    if n.Err? {
      return Err(n.error);
    }
    var text := AssembleReading(fetch(n.value));
    return Ok(text);
  }

  /** A page that was not fetched with status 200 reads as the fixed failure
      text, whatever the pair and the blocks. */
  lemma FailedFetchIgnoresPage(a: Response, b: Response)
    requires a.status != 200 && b.status != 200
    ensures Reading(a) == Reading(b) == FetchFailed
  {
  }

  /** Titles never reach the reading: pages that differ only in their titles
      read the same. */
  lemma {:induction false} ReadingIgnoresTitles(a: Response, b: Response)
    requires a.status == b.status && |a.blocks| == |b.blocks|
    requires forall k :: 0 <= k < |a.blocks| ==> a.blocks[k].paragraph == b.blocks[k].paragraph
    ensures Reading(a) == Reading(b)
  {
    assert Paragraphs(a.blocks) == Paragraphs(b.blocks);
  }

  /** On a successful page with blocks, the k-th block's paragraph (or the
      placeholder) appears at its offset in the reading, followed by a blank
      line unless it is the last one: the paragraphs come in document order. */
  lemma ReadingHoldsParagraph(page: Response, k: nat)
    requires page.status == 200 && k < |page.blocks|
    ensures var ps := Paragraphs(page.blocks);
      var o := Offset(ps, Separator, k);
      o + |Paragraph(page.blocks[k])| <= |Reading(page)| &&
      Reading(page)[o..o + |Paragraph(page.blocks[k])|] == Paragraph(page.blocks[k]) &&
      (k + 1 < |page.blocks| ==>
        o + |Paragraph(page.blocks[k])| + 2 <= |Reading(page)| &&
        Reading(page)[o + |Paragraph(page.blocks[k])|..o + |Paragraph(page.blocks[k])| + 2] == Separator)
  {
    JoinPartAt(Paragraphs(page.blocks), Separator, k);
    if k + 1 < |page.blocks| {
      JoinSeparatorAfter(Paragraphs(page.blocks), Separator, k);
    }
  }

  /** The length of a successful reading: all paragraphs plus one blank line
      between neighbours. */
  lemma ReadingLength(page: Response)
    requires page.status == 200 && page.blocks != []
    ensures |Reading(page)| == TotalLength(Paragraphs(page.blocks)) + 2 * (|page.blocks| - 1)
  {
    JoinLength(Paragraphs(page.blocks), Separator);
  }

  /** The regression case: one block with a paragraph reads as that paragraph. */
  lemma SingleBlockReading(p: string, title: Option<string>)
    ensures Reading(Response(200, [Block(title, Some(p))])) == p
  {
  }
}
