/** The block-tree renderer of notion_rag/extractor.py.

    A page is a listing of child blocks delivered in batches; a block that
    has children carries the listing of its own children. Each image block
    carries the result that `describe_image` returns for it. */
module Extractor {
  import opened Wrappers
  import opened Strings
  import opened NotionHelpers
  import opened Image

  // ---------------------------------------------------------------------------
  // Blocks
  // ---------------------------------------------------------------------------

  /** The seven rich-text block types that share one rendering rule. */
  datatype TextStyle = Paragraph | BulletedListItem | NumberedListItem | ToDo(checked: bool) | Quote | Callout | Toggle

  /** The `type` of a block together with the fields of its payload that are read. */
  datatype BlockKind =
    | TextBlock(style: TextStyle, richText: RichText)
    | Heading(level: nat, richText: RichText)          // heading_1, heading_2, heading_3
    | Code(richText: RichText, language: string, caption: RichText)
    | Table
    | TableRow(cells: seq<RichText>)
    | Divider
    | ImageBlock(data: ImageData, caption: RichText, analysis: ImageResult)
    | Bookmark(url: string, caption: RichText)
    | LinkPreview(url: string)
    | FileBlock(name: string, caption: RichText)     // file and pdf
    | ChildPage(title: string)
    | ChildDatabase(title: string)
    | ColumnList
    | Column
    | SyncedBlock
    | Unsupported                                     // any other type

  /** A block; `children` is what listing its children returns, read only when `hasChildren`. */
  datatype Block = Block(kind: BlockKind, hasChildren: bool, children: seq<Batch>)

  /** One response of the paginated children listing. */
  datatype Batch = Batch(results: seq<Block>, hasMore: bool)

  /** One entry of `image_details`. */
  datatype ImageDetail = ImageDetail(url: string, caption: string, kind: ImageKind, cost: real, elapsed: real, descriptionPreview: string)

  /** The kinds that render their children at their own depth and nothing else. */
  predicate IsContainer(k: BlockKind) {
    k.Table? || k.ColumnList? || k.Column? || k.SyncedBlock?
  }

  /** The response for the listing position `cursor`; past the last batch the listing is empty. */
  function Response(listing: seq<Batch>, cursor: nat): Batch {
    if cursor < |listing| then listing[cursor] else Batch([], false)
  }

  // ---------------------------------------------------------------------------
  // Rendering of one block's own lines
  // ---------------------------------------------------------------------------

  /** Two spaces per nesting level. */
  function Indent(depth: nat): (r: string)
    ensures |r| == 2 * depth
    ensures forall i :: 0 <= i < |r| ==> r[i] == ' '
  {
    Repeat(' ', 2 * depth)
  }

  function TextPrefix(style: TextStyle): string {
    match style
    case Paragraph => ""
    case BulletedListItem => "- "
    case NumberedListItem => "1. "
    case ToDo(checked) => if checked then "- [x] " else "- [ ] "
    case Quote => "> "
    case Callout => "> [!NOTE] "
    case Toggle => "\U{25B6} "
  }

  /** The cell texts of a table row, in order. */
  function CellTexts(cells: seq<RichText>): (r: seq<string>)
    ensures |r| == |cells|
    ensures forall i :: 0 <= i < |cells| ==> r[i] == ExtractRichText(cells[i])
  {
    seq(|cells|, i requires 0 <= i < |cells| => ExtractRichText(cells[i]))
  }

  function TableRowLine(indent: string, cells: seq<RichText>): string {
    indent + "| " + Join(CellTexts(cells), " | ") + " |"
  }

  /** The lines of an analysed image: a terminal capture has no wrapper, anything else
      is wrapped in an `**[Image]**` block followed by the code outside it. */
  function AnalysedImageLines(indent: string, caption: string, r: ImageResult): seq<string> {
    if r.kind == Terminal then
      (if r.description != "" then ["\n" + indent + r.description] else [])
      + (if r.code != "" then ["\n" + indent + "```\n" + r.code + "\n" + indent + "```\n"] else [])
    else
      var tag := if caption != "" then "Image: " + caption else "Image";
      (if r.description != ""
       then ["\n\n" + indent + "**[" + tag + "]**\n" + indent + r.description + "\n" + indent + "**[/" + tag + "]**\n\n"]
       else [])
      + (if r.code != "" then [indent + "```\n" + r.code + "\n" + indent + "```\n"] else [])
  }

  /** The placeholder of an image whose url could not be resolved. */
  function UnresolvedImageLine(indent: string, caption: string): string {
    indent + (if caption != "" then "[IMAGE: " + caption + "]" else "[IMAGE]")
  }

  /** The lines a non-container block contributes before its children. */
  function OwnLines(k: BlockKind, depth: nat): seq<string> {
    var indent := Indent(depth);
    match k
    case TextBlock(style, rt) =>
      var text := ExtractRichText(rt);
      if text != "" then [indent + TextPrefix(style) + text] else []
    case Heading(level, rt) =>
      var text := ExtractRichText(rt);
      if text != "" then ["\n" + Repeat('#', level) + " " + text] else []
    case Code(rt, lang, cap) =>
      var text := ExtractRichText(rt);
      var caption := ExtractRichText(cap);
      if text != "" then
        [indent + "```" + lang, text, indent + "```"]
        + (if caption != "" then [indent + "[Code description: " + caption + "]"] else [])
      else []
    case TableRow(cells) => [TableRowLine(indent, cells)]
    case Divider => [indent + "---"]
    case ImageBlock(data, cap, analysis) =>
      var caption := ExtractRichText(cap);
      var url := GetImageUrl(data);
      if url != "" then AnalysedImageLines(indent, caption, analysis)
      else [UnresolvedImageLine(indent, caption)]
    case Bookmark(url, cap) =>
      var caption := ExtractRichText(cap);
      if caption != "" then [indent + "[REF: " + caption + " - " + url + "]"]
      else if url != "" then [indent + "[REF: " + url + "]"]
      else []
    case LinkPreview(url) => if url != "" then [indent + "[LINK: " + url + "]"] else []
    case FileBlock(name, cap) =>
      var caption := ExtractRichText(cap);
      [indent + "[FILE: " + (if name != "" then name else if caption != "" then caption else "attachment") + "]"]
    case ChildPage(title) => [indent + "[CHILD PAGE: " + title + "]"]
    case ChildDatabase(title) => [indent + "[CHILD DB: " + title + "]"]
    case _ => []
  }

  /** The image the block sends to the vision model, if any. */
  predicate Analysed(k: BlockKind) {
    k.ImageBlock? && GetImageUrl(k.data) != ""
  }

  function OwnCost(k: BlockKind): real {
    if Analysed(k) then k.analysis.cost else 0.0
  }

  function DetailOf(url: string, caption: string, r: ImageResult): ImageDetail {
    ImageDetail(url, caption, r.kind, r.cost, r.elapsed, Take(r.description, 100))
  }

  function OwnDetails(k: BlockKind): seq<ImageDetail> {
    if Analysed(k) then
      var url := GetImageUrl(k.data);
      var caption := ExtractRichText(k.caption);
      [DetailOf(url, caption, k.analysis)]
    else []
  }

  /** A child text is appended only when it is not empty. */
  function NonEmpty(s: string): seq<string> {
    if s == "" then [] else [s]
  }

  // ---------------------------------------------------------------------------
  // The whole tree
  // ---------------------------------------------------------------------------

  /** The entries the block adds to `texts` at `depth`. */
  function BlockTexts(b: Block, depth: nat): seq<string>
    decreases b
  {
    if IsContainer(b.kind) then
      if b.hasChildren then NonEmpty(Join(ListingTexts(b.children, depth), "\n")) else []
    else
      OwnLines(b.kind, depth)
      + (if b.hasChildren then NonEmpty(Join(ListingTexts(b.children, depth + 1), "\n")) else [])
  }

  function BatchTexts(bs: seq<Block>, depth: nat): seq<string>
    decreases bs
  {
    if |bs| == 0 then [] else BatchTexts(bs[..|bs| - 1], depth) + BlockTexts(bs[|bs| - 1], depth)
  }

  /** The entries of a listing: batch after batch until one says there is no more. */
  function ListingTexts(listing: seq<Batch>, depth: nat): seq<string>
    decreases listing
  {
    if |listing| == 0 then []
    else BatchTexts(listing[0].results, depth)
         + (if listing[0].hasMore then ListingTexts(listing[1..], depth) else [])
  }

  /** The text `extract_blocks_with_images` returns for a listing. */
  function Render(listing: seq<Batch>, depth: nat): string {
    Join(ListingTexts(listing, depth), "\n")
  }

  function BlockCost(b: Block): real
    decreases b
  {
    OwnCost(b.kind) + (if b.hasChildren then ListingCost(b.children) else 0.0)
  }

  function BatchCost(bs: seq<Block>): real
    decreases bs
  {
    if |bs| == 0 then 0.0 else BatchCost(bs[..|bs| - 1]) + BlockCost(bs[|bs| - 1])
  }

  /** The image cost `extract_blocks_with_images` returns for a listing. */
  function ListingCost(listing: seq<Batch>): real
    decreases listing
  {
    if |listing| == 0 then 0.0
    else BatchCost(listing[0].results)
         + (if listing[0].hasMore then ListingCost(listing[1..]) else 0.0)
  }

  function BlockDetails(b: Block): seq<ImageDetail>
    decreases b
  {
    OwnDetails(b.kind) + (if b.hasChildren then ListingDetails(b.children) else [])
  }

  function BatchDetails(bs: seq<Block>): seq<ImageDetail>
    decreases bs
  {
    if |bs| == 0 then [] else BatchDetails(bs[..|bs| - 1]) + BlockDetails(bs[|bs| - 1])
  }

  /** The records a listing appends to `image_details`. */
  function ListingDetails(listing: seq<Batch>): seq<ImageDetail>
    decreases listing
  {
    if |listing| == 0 then []
    else BatchDetails(listing[0].results)
         + (if listing[0].hasMore then ListingDetails(listing[1..]) else [])
  }

  /** One more block of a batch. */
  lemma BatchStep(bs: seq<Block>, i: nat, depth: nat, lines: seq<string>, cost: real, records: seq<ImageDetail>,
                  start: seq<ImageDetail>, blockLines: seq<string>, blockCost: real, records': seq<ImageDetail>)
    requires i < |bs|
    requires lines == BatchTexts(bs[..i], depth) && cost == BatchCost(bs[..i]) && records == start + BatchDetails(bs[..i])
    requires blockLines == BlockTexts(bs[i], depth) && blockCost == BlockCost(bs[i]) && records' == records + BlockDetails(bs[i])
    ensures lines + blockLines == BatchTexts(bs[..i + 1], depth)
    ensures cost + blockCost == BatchCost(bs[..i + 1])
    ensures records' == start + BatchDetails(bs[..i + 1])
  {
    var next := bs[..i + 1];
    assert next[..i] == bs[..i] && next[i] == bs[i];
    assert BatchTexts(next, depth) == BatchTexts(bs[..i], depth) + BlockTexts(bs[i], depth);
    assert BatchCost(next) == BatchCost(bs[..i]) + BlockCost(bs[i]);
    assert BatchDetails(next) == BatchDetails(bs[..i]) + BlockDetails(bs[i]);
    ConcatAssoc(start, BatchDetails(bs[..i]), BlockDetails(bs[i]));
  }

  /** One more response of a listing: what was gathered so far plus the response at
      `cursor` is gathered up to `cursor + 1`, or is everything when it was the last. */
  lemma ListingStep(listing: seq<Batch>, cursor: nat, depth: nat,
                    texts: seq<string>, total: real, records: seq<ImageDetail>, start: seq<ImageDetail>)
    requires cursor <= |listing|
    requires ListingTexts(listing, depth) == texts + ListingTexts(listing[cursor..], depth)
    requires ListingCost(listing) == total + ListingCost(listing[cursor..])
    requires start + ListingDetails(listing) == records + ListingDetails(listing[cursor..])
    ensures var r := Response(listing, cursor);
      var texts' := texts + BatchTexts(r.results, depth);
      var total' := total + BatchCost(r.results);
      var records' := records + BatchDetails(r.results);
      if r.hasMore then
        cursor < |listing|
        && ListingTexts(listing, depth) == texts' + ListingTexts(listing[cursor + 1..], depth)
        && ListingCost(listing) == total' + ListingCost(listing[cursor + 1..])
        && start + ListingDetails(listing) == records' + ListingDetails(listing[cursor + 1..])
      else
        texts' == ListingTexts(listing, depth)
        && total' == ListingCost(listing)
        && records' == start + ListingDetails(listing)
  {
    if cursor < |listing| {
      assert listing[cursor..][0] == listing[cursor] && listing[cursor..][1..] == listing[cursor + 1..];
      var results := listing[cursor].results;
      ConcatAssoc(texts, BatchTexts(results, depth), ListingTexts(listing[cursor + 1..], depth));
      ConcatAssoc(records, BatchDetails(results), ListingDetails(listing[cursor + 1..]));
    }
  }

  // ---------------------------------------------------------------------------
  // The extractor
  // ---------------------------------------------------------------------------

  /** The caller's `image_details` list. */
  class ImageLog {
    var records: seq<ImageDetail>

    constructor ()
      ensures records == []
    {
      records := [];
    }
  }

  /** `extract_blocks_with_images`: renders a listing at `depth`, returns the text and the
      image cost, and appends a record per analysed image to `details`. */
  method ExtractBlocksWithImages(listing: seq<Batch>, depth: nat, details: ImageLog)
    returns (text: string, cost: real)
    modifies details
    decreases listing, 2
    ensures text == Render(listing, depth)
    ensures cost == ListingCost(listing)
    ensures details.records == old(details.records) + ListingDetails(listing)
  {
    var texts: seq<string> := [];
    var total := 0.0;
    var cursor := 0;
    while true
      invariant 0 <= cursor <= |listing|
      invariant ListingTexts(listing, depth) == texts + ListingTexts(listing[cursor..], depth)
      invariant ListingCost(listing) == total + ListingCost(listing[cursor..])
      invariant old(details.records) + ListingDetails(listing)
                  == details.records + ListingDetails(listing[cursor..])
      decreases |listing| - cursor
    {
      var response := Response(listing, cursor);
      ListingStep(listing, cursor, depth, texts, total, details.records, old(details.records));
      var lines, c := ExtractBatch(listing, cursor, depth, details);
      texts := texts + lines;
      total := total + c;
      if !response.hasMore {
        break;
      }
      cursor := cursor + 1;
    }
    text := Join(texts, "\n");
    cost := total;
  }

  /** The loop over the blocks of the response at `cursor`, in order. */
  method ExtractBatch(listing: seq<Batch>, cursor: nat, depth: nat, details: ImageLog)
    returns (lines: seq<string>, cost: real)
    modifies details
    decreases listing, 1
    ensures lines == BatchTexts(Response(listing, cursor).results, depth)
    ensures cost == BatchCost(Response(listing, cursor).results)
    ensures details.records == old(details.records) + BatchDetails(Response(listing, cursor).results)
  {
    var blocks := Response(listing, cursor).results;
    ghost var records0 := details.records;
    lines, cost := [], 0.0;
    var i := 0;
    while i < |blocks|
      invariant 0 <= i <= |blocks|
      invariant lines == BatchTexts(blocks[..i], depth)
      invariant cost == BatchCost(blocks[..i])
      invariant details.records == records0 + BatchDetails(blocks[..i])
    {
      assert cursor < |listing| && blocks == listing[cursor].results;
      ghost var records := details.records;
      var blockLines, c := ExtractBlock(blocks[i], depth, details);
      BatchStep(blocks, i, depth, lines, cost, records, records0, blockLines, c, details.records);
      lines := lines + blockLines;
      cost := cost + c;
      i := i + 1;
    }
    assert blocks[..i] == blocks;
  }

  /** The body of the loop over one batch: the entries one block adds and its image cost. */
  method ExtractBlock(b: Block, depth: nat, details: ImageLog)
    returns (lines: seq<string>, cost: real)
    modifies details
    decreases b
    ensures lines == BlockTexts(b, depth)
    ensures cost == BlockCost(b)
    ensures details.records == old(details.records) + BlockDetails(b)
  {
    lines, cost := [], 0.0;
    if IsContainer(b.kind) {
      if b.hasChildren {
        var childText, childCost := ExtractBlocksWithImages(b.children, depth, details);
        cost := childCost;
        if childText != "" {
          lines := [childText];
        }
      }
      return;
    }
    if b.kind.ImageBlock? {
      var caption := ExtractRichText(b.kind.caption);
      var url := GetImageUrl(b.kind.data);
      if url != "" {
        var result := b.kind.analysis;
        cost := result.cost;
        details.records := details.records + [DetailOf(url, caption, result)];
        lines := AnalysedImageLines(Indent(depth), caption, result);
      } else {
        lines := [UnresolvedImageLine(Indent(depth), caption)];
      }
    } else {
      lines := OwnLines(b.kind, depth);
    }
    if b.hasChildren {
      var childText, childCost := ExtractBlocksWithImages(b.children, depth + 1, details);
      cost := cost + childCost;
      if childText != "" {
        lines := lines + [childText];
      }
    }
  }

  // ---------------------------------------------------------------------------
  // Properties of the rendering
  // ---------------------------------------------------------------------------

  /** One level deeper is two more spaces. */
  lemma IndentNext(depth: nat)
    ensures Indent(depth + 1) == Indent(depth) + "  "
  {
    var a, b := Indent(depth + 1), Indent(depth) + "  ";
    assert |a| == |b|;
    assert forall i :: 0 <= i < |a| ==> a[i] == b[i];
  }

  /** A rich-text block with empty text emits nothing; otherwise one line: the indent,
      one of the style prefixes, then the text. */
  lemma TextLineForm(style: TextStyle, rt: RichText, depth: nat)
    ensures ExtractRichText(rt) == "" <==> OwnLines(TextBlock(style, rt), depth) == []
    ensures var lines := OwnLines(TextBlock(style, rt), depth);
            var text := ExtractRichText(rt);
            text != "" ==>
              |lines| == 1 && StartsWith(lines[0], Indent(depth)) && EndsWith(lines[0], text)
              && lines[0][2 * depth..|lines[0]| - |text|] in {"", "- ", "1. ", "- [x] ", "- [ ] ", "> [!NOTE] ", "\U{25B6} ", "> "}
    ensures style.ToDo? ==> (TextPrefix(style) == "- [x] " <==> style.checked)
  {
    var text := ExtractRichText(rt);
    if text != "" {
      var line := Indent(depth) + TextPrefix(style) + text;
      assert line[..2 * depth] == Indent(depth);
      assert line[|line| - |text|..] == text;
      assert line[2 * depth..|line| - |text|] == TextPrefix(style);
    }
  }

  /** A heading is not indented: a newline, `level` hashes, a space, then the text,
      at every depth. */
  lemma HeadingLineForm(level: nat, rt: RichText, depth: nat)
    ensures ExtractRichText(rt) == "" <==> OwnLines(Heading(level, rt), depth) == []
    ensures var lines := OwnLines(Heading(level, rt), depth);
            var text := ExtractRichText(rt);
            text != "" ==>
              |lines| == 1 && lines == OwnLines(Heading(level, rt), 0)
              && lines[0][0] == '\n'
              && (forall i :: 1 <= i <= level ==> lines[0][i] == '#')
              && lines[0][level + 1] == ' ' && lines[0][level + 2..] == text
  {
    var text := ExtractRichText(rt);
    if text != "" {
      var line := "\n" + Repeat('#', level) + " " + text;
      assert forall i :: 1 <= i <= level ==> line[i] == Repeat('#', level)[i - 1];
      assert line[level + 2..] == text;
    }
  }

  /** Each separator " | " holds exactly one pipe. */
  lemma {:induction false} JoinPipes(parts: seq<string>)
    requires |parts| >= 1
    requires forall i :: 0 <= i < |parts| ==> '|' !in parts[i]
    ensures CountChar(Join(parts, " | "), '|') == |parts| - 1
  {
    CountCharAbsent(parts[0], '|');
    if |parts| > 1 {
      JoinPipes(parts[1..]);
      CountCharAppend(parts[0] + " | ", Join(parts[1..], " | "), '|');
      CountCharAppend(parts[0], " | ", '|');
    }
  }

  /** A table row of n pipe-free cells holds n + 1 pipes (two for a row without cells). */
  lemma TableRowPipes(cells: seq<RichText>, depth: nat)
    requires forall i :: 0 <= i < |cells| ==> '|' !in ExtractRichText(cells[i])
    ensures var lines := OwnLines(TableRow(cells), depth);
            |lines| == 1 && StartsWith(lines[0], Indent(depth))
            && CountChar(lines[0], '|') == if |cells| == 0 then 2 else |cells| + 1
  {
    var indent, row := Indent(depth), Join(CellTexts(cells), " | ");
    var line := indent + "| " + row + " |";
    ConcatAssoc(indent, "| ", row);
    ConcatAssoc(indent, "| " + row, " |");
    assert line[..|indent|] == indent;
    CountCharAbsent(indent, '|');
    CountCharAppend(indent, "| " + row + " |", '|');
    CountCharAppend("| " + row, " |", '|');
    CountCharAppend("| ", row, '|');
    if |cells| > 0 {
      JoinPipes(CellTexts(cells));
    }
  }

  lemma IndentedLine(indent: string, rest: string)
    ensures StartsWith(indent + rest, indent)
  {
    assert (indent + rest)[..|indent|] == indent;
  }

  /** The kinds other than headings, code and images put every line they emit at the indent. */
  lemma OwnLinesIndented(k: BlockKind, depth: nat)
    requires !k.Heading? && !k.Code? && !k.ImageBlock?
    ensures forall line :: line in OwnLines(k, depth) ==> StartsWith(line, Indent(depth))
  {
    var indent := Indent(depth);
    match k {
      case TextBlock(style, rt) =>
        var text := ExtractRichText(rt);
        assert indent + TextPrefix(style) + text == indent + (TextPrefix(style) + text);
        IndentedLine(indent, TextPrefix(style) + text);
      case TableRow(cells) =>
        var row := Join(CellTexts(cells), " | ");
        assert TableRowLine(indent, cells) == indent + ("| " + row + " |");
        IndentedLine(indent, "| " + row + " |");
      case Divider =>
        IndentedLine(indent, "---");
      case Bookmark(url, cap) =>
        var caption := ExtractRichText(cap);
        assert indent + "[REF: " + caption + " - " + url + "]" == indent + ("[REF: " + caption + " - " + url + "]");
        assert indent + "[REF: " + url + "]" == indent + ("[REF: " + url + "]");
        IndentedLine(indent, "[REF: " + caption + " - " + url + "]");
        IndentedLine(indent, "[REF: " + url + "]");
      case LinkPreview(url) =>
        assert indent + "[LINK: " + url + "]" == indent + ("[LINK: " + url + "]");
        IndentedLine(indent, "[LINK: " + url + "]");
      case FileBlock(name, cap) =>
        var caption := ExtractRichText(cap);
        var shown := if name != "" then name else if caption != "" then caption else "attachment";
        assert indent + "[FILE: " + shown + "]" == indent + ("[FILE: " + shown + "]");
        IndentedLine(indent, "[FILE: " + shown + "]");
      case ChildPage(title) =>
        assert indent + "[CHILD PAGE: " + title + "]" == indent + ("[CHILD PAGE: " + title + "]");
        IndentedLine(indent, "[CHILD PAGE: " + title + "]");
      case ChildDatabase(title) =>
        assert indent + "[CHILD DB: " + title + "]" == indent + ("[CHILD DB: " + title + "]");
        IndentedLine(indent, "[CHILD DB: " + title + "]");
      case _ =>
    }
  }

  /** An image without a url becomes a placeholder, costs nothing and is not recorded. */
  lemma UnresolvedImage(data: ImageData, cap: RichText, analysis: ImageResult, depth: nat)
    requires GetImageUrl(data) == ""
    ensures var caption := ExtractRichText(cap);
            OwnLines(ImageBlock(data, cap, analysis), depth)
            == [Indent(depth) + (if caption != "" then "[IMAGE: " + caption + "]" else "[IMAGE]")]
    ensures BlockCost(Block(ImageBlock(data, cap, analysis), false, [])) == 0.0
    ensures BlockDetails(Block(ImageBlock(data, cap, analysis), false, [])) == []
  {
  }

  /** An image hosted under url `u`, in its `file` object or, failing a `file` key, in its
      `external` object, is analysed: its cost is the analysis's and it is recorded in the
      image log under `u`, with its caption and the first 100 characters of the description. */
  lemma HostedImageRecorded(data: ImageData, cap: RichText, analysis: ImageResult, u: string)
    requires u != ""
    requires data.file == Some(Hosted(Some(u))) || (data.file.None? && data.external == Some(Hosted(Some(u))))
    ensures BlockCost(Block(ImageBlock(data, cap, analysis), false, [])) == analysis.cost
    ensures BlockDetails(Block(ImageBlock(data, cap, analysis), false, []))
            == [ImageDetail(u, ExtractRichText(cap), analysis.kind, analysis.cost, analysis.elapsed, Take(analysis.description, 100))]
  {
  }

  /** A `file` key without a url wins over an `external` url: the image is not analysed. */
  lemma FileKeyWins(data: ImageData, cap: RichText, analysis: ImageResult)
    requires data.file == Some(Hosted(None))
    ensures BlockCost(Block(ImageBlock(data, cap, analysis), false, [])) == 0.0
    ensures BlockDetails(Block(ImageBlock(data, cap, analysis), false, [])) == []
  {
  }

  /** A result that is not a terminal capture, an error included, is rendered inside the
      `**[Image]**` wrapper. */
  lemma NonTerminalIsWrapped(data: ImageData, cap: RichText, analysis: ImageResult, depth: nat)
    requires GetImageUrl(data) != ""
    requires analysis.kind != Terminal && analysis.description != ""
    ensures var lines := OwnLines(ImageBlock(data, cap, analysis), depth);
            var caption := ExtractRichText(cap);
            |lines| >= 1
            && StartsWith(lines[0], "\n\n" + Indent(depth) + "**[" + (if caption != "" then "Image: " + caption else "Image") + "]**\n")
  {
    var caption := ExtractRichText(cap);
    var r := analysis;
    var tag := if caption != "" then "Image: " + caption else "Image";
    var head := "\n\n" + Indent(depth) + "**[" + tag + "]**\n";
    var line := head + Indent(depth) + r.description + "\n" + Indent(depth) + "**[/" + tag + "]**\n\n";
    assert line == head + (Indent(depth) + r.description + "\n" + Indent(depth) + "**[/" + tag + "]**\n\n");
    assert line[..|head|] == head;
  }

  // ---------------------------------------------------------------------------
  // Properties of the recursion
  // ---------------------------------------------------------------------------

  /** A listing of one final batch holding one block renders that block alone. */
  lemma SingleBlockListing(b: Block, depth: nat)
    ensures ListingTexts([Batch([b], false)], depth) == BlockTexts(b, depth)
    ensures ListingCost([Batch([b], false)]) == BlockCost(b)
    ensures ListingDetails([Batch([b], false)]) == BlockDetails(b)
  {
    var listing := [Batch([b], false)];
    assert [b][..0] == [] && listing[0].results == [b] && !listing[0].hasMore;
    assert BatchTexts([b], depth) == BlockTexts(b, depth);
    assert ListingTexts(listing, depth) == BatchTexts([b], depth) + [];
    assert BatchCost([b]) == BlockCost(b);
    assert BatchDetails([b]) == BlockDetails(b);
    assert ListingDetails(listing) == BatchDetails([b]) + [];
  }

  /** A table, column list, column or synced block adds nothing but its children, rendered
      at its own depth: wrapping a listing in one leaves the text, cost and records unchanged. */
  lemma ContainerTransparent(k: BlockKind, children: seq<Batch>, depth: nat)
    requires IsContainer(k)
    ensures Render([Batch([Block(k, true, children)], false)], depth) == Render(children, depth)
    ensures ListingCost([Batch([Block(k, true, children)], false)]) == ListingCost(children)
    ensures ListingDetails([Batch([Block(k, true, children)], false)]) == ListingDetails(children)
    ensures Render([Batch([Block(k, false, children)], false)], depth) == ""
  {
    SingleBlockListing(Block(k, true, children), depth);
    SingleBlockListing(Block(k, false, children), depth);
  }

  /** Any other block with children is followed by the children's text one level deeper:
      a toggle holding one paragraph. */
  lemma ToggleChildIndented(rt: RichText, childRt: RichText, depth: nat)
    requires ExtractRichText(rt) != "" && ExtractRichText(childRt) != ""
    ensures var child := Block(TextBlock(Paragraph, childRt), false, []);
            var toggle := Block(TextBlock(Toggle, rt), true, [Batch([child], false)]);
            Render([Batch([toggle], false)], depth)
            == Indent(depth) + "\U{25B6} " + ExtractRichText(rt) + "\n" + Indent(depth) + "  " + ExtractRichText(childRt)
  {
    var child := Block(TextBlock(Paragraph, childRt), false, []);
    var children := [Batch([child], false)];
    var toggle := Block(TextBlock(Toggle, rt), true, children);
    var childLine := Indent(depth + 1) + ExtractRichText(childRt);
    var line := Indent(depth) + "\U{25B6} " + ExtractRichText(rt);
    assert ListingTexts(children, depth + 1) == [childLine] by {
      SingleBlockListing(child, depth + 1);
      assert OwnLines(child.kind, depth + 1) == [Indent(depth + 1) + "" + ExtractRichText(childRt)];
      assert Indent(depth + 1) + "" + ExtractRichText(childRt) == childLine;
    }
    assert BlockTexts(toggle, depth) == [line, childLine] by {
      assert OwnLines(toggle.kind, depth) == [line];
      assert Join([childLine], "\n") == childLine;
    }
    assert Render([Batch([toggle], false)], depth) == line + "\n" + childLine by {
      SingleBlockListing(toggle, depth);
    }
    IndentNext(depth);
    ConcatAssoc(line + "\n", Indent(depth) + "  ", ExtractRichText(childRt));
    ConcatAssoc(line + "\n", Indent(depth), "  ");
  }

  function SumCost(ds: seq<ImageDetail>): real {
    if |ds| == 0 then 0.0 else ds[0].cost + SumCost(ds[1..])
  }

  lemma {:induction false} SumCostAppend(a: seq<ImageDetail>, b: seq<ImageDetail>)
    ensures SumCost(a + b) == SumCost(a) + SumCost(b)
  {
    if |a| == 0 {
      assert a + b == b;
    } else {
      assert (a + b)[1..] == a[1..] + b;
      SumCostAppend(a[1..], b);
    }
  }

  /** The returned cost is the sum of the costs recorded for the analysed images, nested
      ones included. */
  lemma {:induction false} BlockCostIsSum(b: Block)
    ensures BlockCost(b) == SumCost(BlockDetails(b))
    decreases b
  {
    var own := OwnDetails(b.kind);
    assert SumCost(own) == OwnCost(b.kind);
    if b.hasChildren {
      ListingCostIsSum(b.children);
      SumCostAppend(own, ListingDetails(b.children));
    } else {
      assert own + [] == own;
    }
  }

  lemma {:induction false} BatchCostIsSum(bs: seq<Block>)
    ensures BatchCost(bs) == SumCost(BatchDetails(bs))
    decreases bs
  {
    if |bs| > 0 {
      BatchCostIsSum(bs[..|bs| - 1]);
      BlockCostIsSum(bs[|bs| - 1]);
      SumCostAppend(BatchDetails(bs[..|bs| - 1]), BlockDetails(bs[|bs| - 1]));
    }
  }

  lemma {:induction false} ListingCostIsSum(listing: seq<Batch>)
    ensures ListingCost(listing) == SumCost(ListingDetails(listing))
    decreases listing
  {
    if |listing| > 0 {
      var head := BatchDetails(listing[0].results);
      BatchCostIsSum(listing[0].results);
      if listing[0].hasMore {
        ListingCostIsSum(listing[1..]);
        SumCostAppend(head, ListingDetails(listing[1..]));
      } else {
        assert head + [] == head;
      }
    }
  }

  /** The blocks a listing delivers: every batch up to the first that has no more. */
  function ListedBlocks(listing: seq<Batch>): seq<Block> {
    if |listing| == 0 then []
    else listing[0].results + (if listing[0].hasMore then ListedBlocks(listing[1..]) else [])
  }

  lemma {:induction false} BatchTextsAppend(xs: seq<Block>, ys: seq<Block>, depth: nat)
    ensures BatchTexts(xs + ys, depth) == BatchTexts(xs, depth) + BatchTexts(ys, depth)
    decreases |ys|
  {
    if |ys| == 0 {
      assert xs + ys == xs;
    } else {
      var init, y := ys[..|ys| - 1], ys[|ys| - 1];
      assert xs + ys == (xs + init) + [y];
      assert ys == init + [y];
      BatchTextsSnoc(xs + init, y, depth);
      BatchTextsSnoc(init, y, depth);
      BatchTextsAppend(xs, init, depth);
      ConcatAssoc(BatchTexts(xs, depth), BatchTexts(init, depth), BlockTexts(y, depth));
    }
  }

  lemma BatchTextsSnoc(bs: seq<Block>, b: Block, depth: nat)
    ensures BatchTexts(bs + [b], depth) == BatchTexts(bs, depth) + BlockTexts(b, depth)
  {
    assert (bs + [b])[..|bs|] == bs;
  }

  lemma {:induction false} BatchCostAppend(xs: seq<Block>, ys: seq<Block>)
    ensures BatchCost(xs + ys) == BatchCost(xs) + BatchCost(ys)
    decreases |ys|
  {
    if |ys| == 0 {
      assert xs + ys == xs;
    } else {
      var init := ys[..|ys| - 1];
      assert (xs + ys)[..|xs + ys| - 1] == xs + init;
      assert (xs + ys)[|xs + ys| - 1] == ys[|ys| - 1];
      BatchCostAppend(xs, init);
    }
  }

  lemma {:induction false} BatchDetailsAppend(xs: seq<Block>, ys: seq<Block>)
    ensures BatchDetails(xs + ys) == BatchDetails(xs) + BatchDetails(ys)
    decreases |ys|
  {
    if |ys| == 0 {
      assert xs + ys == xs;
    } else {
      var init, y := ys[..|ys| - 1], ys[|ys| - 1];
      assert (xs + ys)[..|xs + ys| - 1] == xs + init;
      assert (xs + ys)[|xs + ys| - 1] == y;
      BatchDetailsAppend(xs, init);
      ConcatAssoc(BatchDetails(xs), BatchDetails(init), BlockDetails(y));
    }
  }

  /** Pagination is invisible: the blocks of all batches are rendered as one batch, in
      listing order. */
  lemma {:induction false} ListingInOrder(listing: seq<Batch>, depth: nat)
    ensures ListingTexts(listing, depth) == BatchTexts(ListedBlocks(listing), depth)
    ensures ListingCost(listing) == BatchCost(ListedBlocks(listing))
    ensures ListingDetails(listing) == BatchDetails(ListedBlocks(listing))
  {
    if |listing| > 0 {
      var head := listing[0].results;
      if listing[0].hasMore {
        ListingInOrder(listing[1..], depth);
        BatchTextsAppend(head, ListedBlocks(listing[1..]), depth);
        BatchCostAppend(head, ListedBlocks(listing[1..]));
        BatchDetailsAppend(head, ListedBlocks(listing[1..]));
      } else {
        assert head + [] == head;
        assert ListedBlocks(listing) == head;
      }
    }
  }

  /** The loop ends at the first batch without more: nothing after it is ever read. */
  lemma {:induction false} ListingEndsAtFinalBatch(listing: seq<Batch>, extra: seq<Batch>, depth: nat)
    requires |listing| > 0 && !listing[|listing| - 1].hasMore
    ensures ListingTexts(listing + extra, depth) == ListingTexts(listing, depth)
    ensures ListingCost(listing + extra) == ListingCost(listing)
    ensures ListingDetails(listing + extra) == ListingDetails(listing)
  {
    assert (listing + extra)[0] == listing[0];
    if listing[0].hasMore {
      assert (listing + extra)[1..] == listing[1..] + extra;
      ListingEndsAtFinalBatch(listing[1..], extra, depth);
    }
  }
}
