# notion_rag in Dafny

This project models the indexing core of notion_rag, a retrieval-augmented
search over Notion databases. The system reads a Notion database page by page
and renders each page's block tree as plain text. Images in a page are described
by a Gemini vision model. The rendered text goes under a metadata header and is
uploaded to a Gemini File Search store, tagged with the page id and its
`last_edited` timestamp. `init_db` indexes every page of a database. `sync_db`
reindexes only the pages whose timestamp changed. The billing report sums the
logged costs in total, by day or by month.

There is one module per source file:

| module | file | what it holds |
|---|---|---|
| `NotionHelpers` | `notion_helpers.dfy` | page and database id parsing (`extract_page_id`, `extract_db_id`), `extract_rich_text`, `get_page_properties` |
| `Config` | `config.dfy` | the pricing table and `calc_cost` |
| | | the database registry: `resolve_db`, and `save_database` as a `Registry` class whose map is updated in place |
| `Image` | `image.dfy` | `get_image_url`, `describe_image` with its MIME and error paths, `_parse_image_response` |
| | | the reply's line scanner, as a loop proved against a `Step` fold, and the code-fence stripping |
| `Extractor` | `extractor.dfy` | `extract_blocks_with_images` over a paginated block tree, as recursive methods |
| | | the methods are proved against the functions `Render`, `ListingCost` and `ListingDetails` |
| | | the image-detail list the source appends to, as the `ImageLog` class |
| `Store` | `store.dfy` | `db_store_name`, `find_document`, `get_document_last_edited`, `list_documents_map` |
| | | the File Search service as a `FileSearchService` class: `get_or_create_store`, `delete_store`, document delete and upload |
| `Indexer` | `indexer.dfy` | `index_page`, with a specification function `IndexPageSpec` |
| | | the header and uploaded text |
| | | the `init_db` and `sync_db` page loops, proved against step functions `InitRun` and `SyncRun` |
| `Billing` | `billing.dfy` | `_aggregate_total`, `_aggregate_by` and `get_billing` |

`Wrappers` (Option and Result) and `Strings` hold the modelled Python string operations and their lemmas. Those operations are `split`, `join`, `strip`, `upper`/`lower`, slicing, `in`, `replace("-", "")` and sorted order.

The outside services enter the model as data:
- **Notion.** A block listing is a sequence of batches. Each batch has `results` and `has_more`, and each block carries its children's listing. A page that can be retrieved is a `PageSource` in a page map. The page ids a database query returns are a parameter.
- **Gemini vision.** The download outcome and the model's reply are parameters of `DescribeImage`. In the block tree, an image block carries the result of its analysis.
- **Gemini embedding.** The token count of an upload is a field of the `PageSource`.
- **Clock.** The elapsed time is a parameter.
- **Failures.** An exception raised while a page is processed is a page missing from the page map. `sys.exit` and `ValueError` become `Err` results carrying the source's messages.

Where the system's documentation and its code differ, the model follows the code:
- **Image errors.** An image whose analysis returned an error result is rendered through the diagram/other branch, not as an `[IMAGE]` placeholder. See notion_rag/extractor.py:143-156.
- **Document map.** `list_documents_map` keys a document by its first `page_id` metadata entry with a non-empty value. See notion_rag/store.py:96-101.
- **Registry save.** `init_db` saves the label and URL in the registry before the URL is validated by `extract_db_id`. See notion_rag/indexer.py:198-207.
- **Image children.** An image block with children is recursed into at depth + 1, like any other non-container block. See notion_rag/extractor.py:212-221.

## Model

| member | source | states |
|---|---|---|
| NotionHelpers.ExtractRichTextIsConcat | notion_rag/notion_helpers.py:92-100 | `extract_rich_text` is the concatenation of the items' plain texts |
| NotionHelpers.ExtractRichTextAppend | notion_rag/notion_helpers.py:92-100 | extracting two lists one after the other equals extracting them joined |
| NotionHelpers.TrailingHexId | notion_rag/notion_helpers.py:33-35 | the last 32 characters are the id whenever they are all hex; an id found is 32 lowercase hex digits ending the path (before an optional final newline, as `$` allows); None iff neither form ends the path |
| NotionHelpers.FindUuid | notion_rag/notion_helpers.py:37-42 | the first position holding a dashed UUID; no earlier position holds one; None exactly when there is none |
| NotionHelpers.UuidUndashed | notion_rag/notion_helpers.py:42 | a matched dashed UUID with its dashes removed is a 32-digit hex id |
| NotionHelpers.UrlId | notion_rag/notion_helpers.py:29-42 | the id is the last 32 characters of the path with the query and dashes removed when those are hex; otherwise an id exists iff the path holds a dashed UUID; any id is 32 hex digits |
| NotionHelpers.ParseId | notion_rag/notion_helpers.py:29-47 | a "notion.so" input with a URL id yields that id; any other input is accepted iff its undashed form is a 32-digit hex id, and yields that form |
| NotionHelpers.ExtractPageId | notion_rag/notion_helpers.py:11-49 | success yields a 32-digit hex id, the URL id for a URL that has one; failure carries "Invalid Notion URL or ID: " followed by the input |
| NotionHelpers.ExtractDbId | notion_rag/notion_helpers.py:52-89 | the id `extract_page_id` gives, whenever it gives one; otherwise the message "Invalid Notion database URL or ID: " followed by the input |
| NotionHelpers.UrlEndingInId | notion_rag/notion_helpers.py:29-35 | a "notion.so" URL without a query that ends in a 32-digit hex id yields that id, as a page id and as a database id |
| NotionHelpers.UrlEndingInDashedId | notion_rag/notion_helpers.py:29-42 | a URL ending in a dashed UUID yields the UUID without its dashes |
| NotionHelpers.UrlUuidFallback | notion_rag/notion_helpers.py:37-42 | when the undashed path does not end in an id, the leftmost dashed UUID, undashed, is the id |
| NotionHelpers.NoNotionInHexDashes | notion_rag/notion_helpers.py:29 | hex digits and dashes never contain "notion.so", so a raw id never takes the URL branch |
| NotionHelpers.RawIdIsUndashed | notion_rag/notion_helpers.py:45-47 | an input without "notion.so" is accepted iff its undashed form is a 32-digit hex id, and the result is that form |
| NotionHelpers.DashedAndUndashedAgree | notion_rag/notion_helpers.py:45-47 | a dashed raw id and its undashed form give the same id |
| NotionHelpers.ExtractPageIdIdempotent | notion_rag/notion_helpers.py:11-49 | extracting from an extracted id gives the id back |
| NotionHelpers.UrlQueryIgnored | notion_rag/notion_helpers.py:31 | appending "?" and a query to a URL leaves the outcome unchanged |
| NotionHelpers.DbIdAgreesWithPageId | notion_rag/notion_helpers.py:52-89 | `extract_db_id` succeeds with the same id exactly when `extract_page_id` does, and fails with a different message |
| NotionHelpers.AsWrittenAcceptsTrailingNewline | notion_rag/notion_helpers.py:46 | the raw-id check as written accepts 32 hex digits plus "\n" and returns 33 characters; the corrected parser rejects the input |
| NotionHelpers.LastWriterWins | notion_rag/notion_helpers.py:125-136 | the value of a key is the one written by the last property that writes it |
| NotionHelpers.UnwrittenKeyKept | notion_rag/notion_helpers.py:125-136 | a key no property writes keeps its base value and is present iff it was present before |
| NotionHelpers.KeysOnlyGrow | notion_rag/notion_helpers.py:125-136 | the property loop never removes a key |
| NotionHelpers.PagePropertiesBase | notion_rag/notion_helpers.py:120-123 | `page_id` and `last_edited` are always present; `last_edited` is the page's `last_edited_time` unless a property overwrites it |
| NotionHelpers.SelectIncludedOnlyWhenSet | notion_rag/notion_helpers.py:129-130 | a select property appears only when it has a value, and then as the option's name |
| NotionHelpers.MultiSelectNames | notion_rag/notion_helpers.py:131-132 | a multi-select property maps to the list of its option names |
| NotionHelpers.GetPageProperties | notion_rag/notion_helpers.py:103-138 | the loop builds exactly `PageProperties(page)`, which always holds `page_id` and `last_edited` |
| Config.Rate | notion_rag/config.py:123 | rates are non-negative; an unknown model costs (0, 0) |
| Config.CalcCost | notion_rag/config.py:113-124 | the cost is non-negative, and 0 for a model without pricing |
| Config.CalcCostAdditive | notion_rag/config.py:123-124 | input and output costs add up to the cost of the call |
| Config.CalcCostSplit | notion_rag/config.py:123-124 | the cost of a + b input tokens is the sum of the two costs |
| Config.CalcCostMonotone | notion_rag/config.py:123-124 | more tokens never cost less |
| Config.EmbeddingCost | notion_rag/config.py:51-58 | an embedding call costs 0.15 per million input tokens, whatever the output-token count |
| Config.ResolveDb | notion_rag/config.py:61-90 | a named label resolves iff registered, to its URL; without a name it resolves iff exactly one database is registered, to that one |
| Config.ResolveDbErrors | notion_rag/config.py:76-90 | the exact messages for an unknown label, an empty registry, and several registered databases (with the sorted labels joined by ", ") |
| Config.Registry.constructor | notion_rag/config.py:33 | the registry starts with the loaded databases |
| Config.Registry.SaveDatabase | notion_rag/config.py:93-110 | the label maps to the URL; every other label is unchanged; the label set grows by at most this label |
| Config.SavedLabelResolves | notion_rag/config.py:93-110 | after saving, the label resolves to the saved URL |
| Config.SaveKeepsOthers | notion_rag/config.py:93-110 | saving a label changes the resolution of no other label |
| Image.MimeOf | notion_rag/image.py:50-51 | the header up to its first ";", stripped; the whole header stripped when it has no ";"; image/png when the header is missing |
| Image.PngMime | notion_rag/image.py:50-51 | the default header parses to image/png |
| Image.MimeIgnoresParameters | notion_rag/image.py:50-51 | a header "mime;params" yields the mime |
| Image.MissingContentTypeIsPng | notion_rag/image.py:50-55 | a response without a content type is a supported image |
| Image.VisionCost | notion_rag/image.py:84-89 | the vision cost is non-negative, and 0 without usage metadata |
| Image.KindOf | notion_rag/image.py:117-123 | terminal iff "terminal" occurs; diagram iff "diagram" occurs without "terminal"; other otherwise; never error |
| Image.Classify | notion_rag/image.py:113-135 | a TYPE line iff the stripped upper-case line starts with "TYPE:", with the kind of the rest; otherwise a DESCRIPTION line iff it starts with "DESCRIPTION:", then a CODE line iff "CODE:", each with the stripped text after its marker; other lines are kept right-stripped |
| Image.ClassifyAll | notion_rag/image.py:108-113 | one classification per line; none has the error kind |
| Image.Step | notion_rag/image.py:113-135 | a TYPE line sets the kind and closes the section; a DESCRIPTION line opens that section with the text after the marker; a CODE line opens the code section, keeping the text after the marker only when non-empty; an unmarked line joins the open section, or is dropped outside one |
| Image.DescriptionLineOpens | notion_rag/image.py:124-126 | a raw DESCRIPTION line opens the description section and adds the stripped text after the marker |
| Image.CodeLineOpens | notion_rag/image.py:127-131 | a raw CODE line opens the code section and adds the text after the marker only when it is not empty |
| Image.StepsAppend | notion_rag/image.py:113-135 | scanning a + b is scanning b from the state after a |
| Image.NeverError | notion_rag/image.py:104-123 | the scanned kind is never error |
| Image.NoTypeLineKeepsKind | notion_rag/image.py:104-123 | without a TYPE line the kind is unchanged |
| Image.LastTypeLineDecides | notion_rag/image.py:115-123 | the last TYPE line decides the kind |
| Image.DescriptionBodyAccumulates | notion_rag/image.py:124-135 | inside DESCRIPTION, unmarked lines are appended to the description lines |
| Image.CodeBodyAccumulates | notion_rag/image.py:127-135 | inside CODE, unmarked lines are appended to the code lines |
| Image.UnsectionedLinesIgnored | notion_rag/image.py:132-135 | unmarked lines before any section are dropped |
| Image.TypeLineClosesSection | notion_rag/image.py:115-123 | a TYPE line closes the section and keeps the lines gathered so far |
| Image.StripFences | notion_rag/image.py:141-151 | text not both opened and closed by a fence is unchanged |
| Image.DropTagLine | notion_rag/image.py:144-149 | a short first line without a leading space is a language tag and is dropped |
| Image.DropEmptyFirstLine | notion_rag/image.py:144-149 | an empty first line is not a language tag |
| Image.StripFencesOfFenced | notion_rag/image.py:141-151 | a fenced block loses both fences and its language line, then is stripped |
| Image.StripFencesPlain | notion_rag/image.py:141-151 | a fenced block without a language tag returns its stripped body |
| Image.StripFencesTagged | notion_rag/image.py:141-151 | a fenced block with a language tag returns its stripped body |
| Image.Assemble | notion_rag/image.py:154-163 | kind, code, cost and elapsed pass through; the description is the given one unless both parts are empty, and then it is the stripped raw reply |
| Image.ParseReply | notion_rag/image.py:94-163 | the kind is the scanned kind; the code is the stripped, unfenced join of the code lines; the description is the stripped join of the description lines unless both are empty, then the stripped reply; cost and elapsed pass through |
| Image.ParsedKindNeverError | notion_rag/image.py:94-163 | a parsed reply never has the error kind |
| Image.DefaultKindIsOther | notion_rag/image.py:104 | without a TYPE line the kind is other |
| Image.KindFromLastTypeLine | notion_rag/image.py:113-123 | the kind named on the last TYPE line is the reply's kind |
| Image.CleanCode | notion_rag/image.py:141-151 | the fence stripping as imperative code equals `StripFences` |
| Image.ScanSnoc | notion_rag/image.py:113-135 | scanning one more line is one more `Step` |
| Image.ScanLine | notion_rag/image.py:113-135 | the per-line branch code performs exactly one `Step` |
| Image.ScanReplyLines | notion_rag/image.py:108-135 | the loop's kind, description lines and code lines are those of `Scan` over the lines |
| Image.ParseImageResponse | notion_rag/image.py:94-163 | `_parse_image_response` equals `ParseReply` |
| Image.FencedCodeReply | notion_rag/image.py:94-163 | a reply "CODE:", a fence, one unmarked line and a closing fence parses to that line as code, with kind other and an empty description |
| Image.FencedCommandReply | notion_rag/image.py:94-163 | the reply "CODE:\n```\nls -la\n```" parses to the code `ls -la` |
| Image.DescribeImage | notion_rag/image.py:29-91 | a failed download gives the "could not be downloaded" error; an unsupported type gives the "unsupported format" error; otherwise the parsed reply, at the vision cost; an error result costs nothing and has no code; the cost is never negative |
| Extractor.Indent | notion_rag/extractor.py:44 | two spaces per level of depth |
| Extractor.TextLineForm | notion_rag/extractor.py:61-86 | a text block gives no line iff its text is empty; otherwise one line: indent, one of the seven prefixes, the text; a to-do is checked iff its prefix is "- [x] " |
| Extractor.HeadingLineForm | notion_rag/extractor.py:89-93 | a heading is one unindented line: newline, level times "#", a space, the text |
| Extractor.TableRowPipes | notion_rag/extractor.py:116-119 | a table row is one indented line with one more pipe than it has cells |
| Extractor.OwnLinesIndented | notion_rag/extractor.py:61-191 | every line of a block other than a heading, code or image starts with the block's indent |
| Extractor.UnresolvedImage | notion_rag/extractor.py:157-162 | an image without a URL renders as the `[IMAGE]` placeholder, with its caption if any; it costs nothing and records no detail |
| Extractor.HostedImageRecorded | notion_rag/extractor.py:126-141 | an image block whose `file` url, or failing a `file` key its `external` url, is u costs its analysis and is recorded once in the image log under u, with caption, kind, cost, elapsed time and the first 100 characters of the description |
| Extractor.FileKeyWins | notion_rag/image.py:22-23 | a `file` key without a url wins over an `external` url: the image is not analysed, costs nothing and is not recorded |
| Extractor.NonTerminalIsWrapped | notion_rag/extractor.py:143-152 | a non-terminal analysed image with a description opens with the `**[Image]**` wrapper, captioned when there is a caption |
| Extractor.BatchStep | notion_rag/extractor.py:55-221 | appending one block's lines, cost and details extends a batch by that block |
| Extractor.ListingStep | notion_rag/extractor.py:49-226 | one response of the pagination loop adds its batch; the loop goes on iff `has_more` |
| Extractor.ImageLog.constructor | notion_rag/extractor.py:13 | the image-detail list starts empty |
| Extractor.ExtractBlocksWithImages | notion_rag/extractor.py:13-228 | returns the rendered listing joined by newlines and the total image cost; appends the listing's image details to the log |
| Extractor.ExtractBatch | notion_rag/extractor.py:49-222 | one response's blocks give their lines, cost and appended details |
| Extractor.ExtractBlock | notion_rag/extractor.py:55-221 | one block gives its own lines, then its children's text at depth + 1 unless it is a container, with their cost and details |
| Extractor.SingleBlockListing | notion_rag/extractor.py:13-228 | a listing of one final batch with one block renders that block |
| Extractor.ContainerTransparent | notion_rag/extractor.py:194-221 | a table, column or synced block renders exactly its children, at the same depth; without children it renders nothing |
| Extractor.ToggleChildIndented | notion_rag/extractor.py:212-221 | a toggle's child paragraph follows the toggle line, indented two more spaces |
| Extractor.BlockCostIsSum | notion_rag/extractor.py:126-141 | a block's image cost is the sum of the costs in the details it records |
| Extractor.BatchCostIsSum | notion_rag/extractor.py:55-221 | a batch's cost is the sum of its recorded detail costs |
| Extractor.ListingCostIsSum | notion_rag/extractor.py:13-228 | the returned cost is the sum of the recorded detail costs |
| Extractor.BatchTextsAppend | notion_rag/extractor.py:55-221 | blocks render in order: the lines of xs + ys are those of xs then ys |
| Extractor.BatchTextsSnoc | notion_rag/extractor.py:55-221 | one more block appends its lines |
| Extractor.BatchCostAppend | notion_rag/extractor.py:55-221 | batch costs add over concatenation |
| Extractor.BatchDetailsAppend | notion_rag/extractor.py:55-221 | details are recorded in block order |
| Extractor.ListingInOrder | notion_rag/extractor.py:49-226 | a paginated listing renders, costs and records like the concatenation of the blocks it lists |
| Extractor.ListingEndsAtFinalBatch | notion_rag/extractor.py:224-226 | responses after one without `has_more` are never read |
| Store.FirstWithPageId | notion_rag/store.py:51-56 | the position of the first document with a matching page_id entry; None iff there is none |
| Store.FoundDocument | notion_rag/store.py:41-56 | a document found is in the listing and carries the page id; None iff no document does |
| Store.FoundIsFirst | notion_rag/store.py:51-56 | the first matching document is the one returned |
| Store.FindDocument | notion_rag/store.py:41-56 | the loop returns `FoundDocument` |
| Store.LastEdited | notion_rag/store.py:79-83 | "" without a `last_edited` entry |
| Store.LastEditedFirst | notion_rag/store.py:79-83 | the first `last_edited` entry's value, or "" when it has none |
| Store.GetDocumentLastEdited | notion_rag/store.py:71-83 | "" for no document, else its `last_edited` value |
| Store.MapKey | notion_rag/store.py:96-101 | a key is never empty; None iff no entry is a non-empty page_id |
| Store.MapKeyFirst | notion_rag/store.py:96-101 | the key is the first non-empty page_id value |
| Store.MapKeyIsPageId | notion_rag/store.py:96-101 | a mapped document is one `find_document` matches for its key |
| Store.DocumentsMap | notion_rag/store.py:86-102 | the empty string is never a key |
| Store.DocumentsMapKeys | notion_rag/store.py:86-102 | a key is present iff some document has it as its map key |
| Store.LaterDocumentWins | notion_rag/store.py:86-102 | of several documents with one key, the last one listed is kept |
| Store.ListDocumentsMap | notion_rag/store.py:86-102 | the loop builds `DocumentsMap` |
| Store.FindAndMapDisagree | notion_rag/store.py:41-102 | with two documents for one page, `find_document` returns the first while the map keeps the second |
| Store.MapAgreesWithFind | notion_rag/store.py:41-102 | with at most one document per page id, the map and `find_document` agree |
| Store.FirstNamed | notion_rag/store.py:31-33 | the first store with the display name; None iff there is none |
| Store.DeleteOnlyFirst | notion_rag/store.py:114-124 | deleting removes one store with the name: the count drops by one |
| Store.RemoveDocument | notion_rag/indexer.py:131-135 | exactly the documents with other ids remain |
| Store.WithoutDocument | notion_rag/indexer.py:131-135 | no store is added, removed or renamed |
| Store.WithUpload | notion_rag/indexer.py:141-151 | no store is added, removed or renamed |
| Store.DocumentsAfterDelete | notion_rag/indexer.py:131-135 | deleting a document removes it from its store's listing |
| Store.DocumentsAfterUpload | notion_rag/indexer.py:141-151 | an upload is appended to its store's listing |
| Store.OtherStoresUnchanged | notion_rag/indexer.py:141-151 | an upload leaves every other store's listing unchanged |
| Store.FileSearchService.constructor | notion_rag/store.py:21-38 | the service starts with the given stores and next id |
| Store.FileSearchService.GetOrCreateStore | notion_rag/store.py:21-38 | an existing store with the name is returned unchanged; otherwise a new empty store, under a name no store uses, is appended; `created` tells which; the state is `OpenStore` of the old one; resource names stay below the next one |
| Store.OpenStore | notion_rag/store.py:21-38 | the store opened has the display name and is the first store with it afterwards |
| Store.OpenStoreIdempotent | notion_rag/store.py:31-33 | opening the same display name again finds the same store and changes nothing |
| Store.OpenStoreCreates | notion_rag/store.py:31-38 | the stores change iff no store has the name, and then only by a new empty store under the next resource name |
| Store.FirstNamedShelves | notion_rag/store.py:31-33 | which store a display name finds depends only on the stores' names and order |
| Store.ReopenSameStore | notion_rag/store.py:21-38 | after document changes only, the same display name opens the same store and creates none |
| Store.FileSearchService.DeleteStore | notion_rag/store.py:105-124 | the first store with the name is removed iff one exists; `deleted` tells which |
| Store.FileSearchService.DeleteDocument | notion_rag/indexer.py:131-135 | the document is removed from every listing |
| Store.FileSearchService.Upload | notion_rag/indexer.py:141-151 | a new document with the display name, metadata and text is appended to the store, under a resource name no store or document uses; resource names stay below the next one |
| Store.IdsBelowUpload | notion_rag/indexer.py:141-151 | an upload under a name below the bound keeps every resource name below it |
| Store.IdsBelowWithout | notion_rag/indexer.py:131-135 | deleting a document keeps every resource name below the bound |
| Store.IdsBelowRemoveAt | notion_rag/store.py:114-124 | deleting a store keeps every resource name below the bound |
| Store.IdsBelowOpen | notion_rag/store.py:21-38 | finding or creating a store keeps every resource name below the next one |
| Indexer.HeaderLines | notion_rag/indexer.py:103-109 | the title line first, then each of the type, tags and reference lines when present |
| Indexer.HeaderIsJoin | notion_rag/indexer.py:103-109 | the header is its lines joined by newlines |
| Indexer.HeaderSplitsIntoLines | notion_rag/indexer.py:103-109 | splitting the header on newlines gives back its lines |
| Indexer.AppendLine | notion_rag/indexer.py:104-109 | one conditional `header +=` step |
| Indexer.BuildHeader | notion_rag/indexer.py:103-109 | the imperative header equals `Header` |
| Indexer.FullTextParts | notion_rag/indexer.py:111 | the upload starts with the title line, has "\n---\n" after the header, and ends with the content |
| Indexer.DisplayName | notion_rag/indexer.py:138 | "[page id] " followed by the first 50 characters of the title |
| Indexer.UploadMetadataRoundTrip | notion_rag/indexer.py:147-148 | an uploaded document reports the timestamp it was given and is found under its page id, and only that one |
| Indexer.IndexPageSpec | notion_rag/indexer.py:47-174 | succeeds iff the page can be retrieved; a failure changes nothing; the indexing cost is never negative |
| Indexer.IndexPage | notion_rag/indexer.py:47-174 | the result and the new service state are those of `IndexPageSpec` |
| Indexer.UploadPage | notion_rag/indexer.py:91-151 | returns the embedding cost of the tokens and the image cost; deletes the replaced document and uploads the new one |
| Indexer.RemoveKeepsUnique | notion_rag/indexer.py:131-135 | deleting keeps at most one document per page id |
| Indexer.AppendKeepsUnique | notion_rag/indexer.py:141-151 | uploading a page absent from the store keeps at most one document per page id |
| Indexer.ClearedHasNone | notion_rag/indexer.py:131-135 | after the old document is deleted, no document carries the page id |
| Indexer.IndexedDocumentFound | notion_rag/indexer.py:75-151 | after (re)indexing, the store still has one document per page id and `find_document` returns the upload |
| Indexer.ReindexIsUpToDate | notion_rag/indexer.py:77-88 | indexing the same unchanged page again uploads nothing and costs nothing |
| Indexer.IndexKeepsIdsBelow | notion_rag/indexer.py:131-151 | indexing a page keeps every resource name below the next one |
| Indexer.IndexKeepsShelves | notion_rag/indexer.py:131-151 | indexing a page changes documents only, never the stores, their names or order |
| Indexer.Missing | notion_rag/indexer.py:243-246 | the failed pages are exactly the listed pages that cannot be retrieved |
| Indexer.InitRunCounts | notion_rag/indexer.py:230-246 | every page is indexed or failed, and exactly the unretrievable pages fail |
| Indexer.SyncRunCounts | notion_rag/indexer.py:333-370 | every page is updated, skipped or failed; exactly the unretrievable pages fail; a forced sync skips nothing |
| Indexer.SyncAllSkipped | notion_rag/indexer.py:342-352 | when every page is up to date, the sync changes nothing and only counts skips |
| Indexer.InitCostGrows | notion_rag/indexer.py:234-246 | the indexing cost never decreases |
| Indexer.InitRunKeepsIdsBelow | notion_rag/indexer.py:234-246 | over the `init_db` loop, resource names stay below the next one |
| Indexer.SyncRunKeepsIdsBelow | notion_rag/indexer.py:338-370 | over the `sync_db` loop, resource names stay below the next one |
| Indexer.InitRunKeepsShelves | notion_rag/indexer.py:234-246 | the `init_db` loop changes documents only |
| Indexer.SyncRunKeepsShelves | notion_rag/indexer.py:338-370 | the `sync_db` loop changes documents only |
| Indexer.InitPage | notion_rag/indexer.py:234-246 | one loop iteration is one `InitStep`, and the service matches the accumulator |
| Indexer.RecordPage | notion_rag/indexer.py:237-246 | one `index_page` call records its outcome: a success counts the page and adds its costs, a failure logs the page; the service matches the accumulator |
| Indexer.IndexPages | notion_rag/indexer.py:230-246 | the loop's result and the service state are those of `InitRun` |
| Indexer.CheckPage | notion_rag/indexer.py:342-352 | skip iff not forced and the stored timestamp equals the current one |
| Indexer.SyncPage | notion_rag/indexer.py:338-370 | one loop iteration is one `SyncStep`, and the service matches the accumulator |
| Indexer.SyncPages | notion_rag/indexer.py:333-370 | the loop's result and the service state are those of `SyncRun` |
| Indexer.InitTarget | notion_rag/indexer.py:197-204 | with a URL, the given label and URL, an error iff no label is given; without one, `resolve_db`'s outcome |
| Indexer.InitDbSpec | notion_rag/indexer.py:197-283 | succeeds iff the target resolves and its URL gives a database id; a failure is the target's error, else the id's error, and changes no store; a success is `IndexDatabase` of the label and the id |
| Indexer.IndexDatabase | notion_rag/indexer.py:214-283 | the summary reports the label, the database id, the label's store name and the number of queried pages |
| Indexer.IndexDatabaseSummary | notion_rag/indexer.py:228-283 | every page is indexed or failed; the failures are the unretrievable pages; the total is the sum of the two costs; resource names stay below the next one |
| Indexer.IndexDatabaseReusesStore | notion_rag/indexer.py:214-216 | the store `init_db` fills is the one its label names: opening that name again finds it and creates no store |
| Indexer.IndexDatabaseInto | notion_rag/indexer.py:214-283 | the result and the new service state are those of `IndexDatabase` |
| Indexer.SyncDbSpec | notion_rag/indexer.py:305-307 | succeeds iff the label resolves and its URL gives a database id; a failure is the resolution's error, else the id's error, and changes no store; a success is `SyncDatabase` of the label and the id |
| Indexer.SyncDatabase | notion_rag/indexer.py:314-408 | the summary reports the label, the database id and the number of queried pages |
| Indexer.SyncDatabaseSummary | notion_rag/indexer.py:329-408 | every page is updated, skipped or failed; the failures are the unretrievable pages; force skips nothing; the post-sync wait happens iff a page was updated; the total is the sum of the costs; resource names stay below the next one |
| Indexer.SyncDatabaseReusesStore | notion_rag/indexer.py:314-316 | the store `sync_db` updates is the one its label names |
| Indexer.SyncDatabaseInto | notion_rag/indexer.py:314-408 | the result and the new service state are those of `SyncDatabase` |
| Indexer.SyncAsWrittenAborts | notion_rag/indexer.py:341-370 | when the first page cannot be retrieved, the loop as written stops with the unbound-`title` error while the intended loop logs the page as failed |
| Indexer.SyncAsWrittenAgrees | notion_rag/indexer.py:341-370 | when the first page can be retrieved, the loop as written and the intended loop agree on every later page |
| Indexer.InitDb | notion_rag/indexer.py:177-283 | the registry gains the label and URL when both are given and is otherwise unchanged; the result and the new service state are those of `InitDbSpec` |
| Indexer.SyncDb | notion_rag/indexer.py:286-408 | the result and the new service state are those of `SyncDbSpec` |
| Billing.TotalOf | notion_rag/billing.py:99-104 | the total is the sum of the three costs |
| Billing.SumAppend | notion_rag/billing.py:88-97 | summing is additive over concatenation |
| Billing.SumCostsAppend | notion_rag/billing.py:88-97 | the costs of a + b are those of a plus those of b |
| Billing.SumCostsSnoc | notion_rag/billing.py:88-97 | one more entry adds its cost |
| Billing.OtherLogIgnored | notion_rag/billing.py:88-97 | an entry of another log type leaves the totals unchanged |
| Billing.IndexingEntryAdds | notion_rag/billing.py:89-91 | an indexing entry adds its `embedding_cost` and `vision_cost` (0 when absent) to the totals and no query cost |
| Billing.QueryEntryAdds | notion_rag/billing.py:92-93 | a query entry adds its `cost`, else its `total_cost`, else 0, to the query total only |
| Billing.RunEntryAdds | notion_rag/billing.py:94-96 | a sync or init entry adds its `indexing_cost` to the embedding total and its `image_cost` to the vision total |
| Billing.QueryCostPrecedence | notion_rag/billing.py:93-94 | a query's cost is `cost`, else `total_cost`, else 0 |
| Billing.AggregateTotal | notion_rag/billing.py:75-104 | the loop returns `TotalOf` |
| Billing.InPeriod | notion_rag/billing.py:118-123 | the entries of a period are timestamped entries with that key |
| Billing.GroupsArePeriods | notion_rag/billing.py:118-123 | a key is grouped iff some entry falls in its period, and its group is exactly those entries |
| Billing.BreakdownRows | notion_rag/billing.py:107-130 | rows are in strictly ascending key order; each row totals exactly its period's entries; no row is empty |
| Billing.BreakdownComplete | notion_rag/billing.py:118-130 | every timestamped entry's period has a row |
| Billing.EntryOfRow | notion_rag/billing.py:118-130 | every row comes from some timestamped entry |
| Billing.UntimedDropped | notion_rag/billing.py:119-120 | an entry without a timestamp is left out of every period |
| Billing.GroupEntries | notion_rag/billing.py:118-123 | the grouping loop builds `Groups` |
| Billing.PeriodRows | notion_rag/billing.py:125-130 | the row loop builds `Rows` |
| Billing.AggregateBy | notion_rag/billing.py:107-130 | `_aggregate_by` returns `Breakdown` |
| Billing.GetBilling | notion_rag/billing.py:15-42 | succeeds iff the period is total, daily or monthly; the total always; daily and monthly breakdowns; the exact error message |
| Billing.KeyPrefix | notion_rag/billing.py:33-40 | a day key extends its month key |
| Billing.DailyRefinesMonthly | notion_rag/billing.py:33-40 | every daily row falls within some monthly row |

## Left out

- **Notion and Gemini calls** are parameters or fields. These include page retrieval, database queries, block listings, image downloads, vision and embedding calls, and token counting. Their contents are free inputs.
- **Temporary files, logging and time.** The temporary upload file, logging (`log_indexing`, `log_init`, `log_sync`, notion_rag/logger.py), printing and `time.time` are left out. Elapsed times are parameters.
- **Polling and waiting.** The upload polling loop (notion_rag/indexer.py:153-157) and the post-run settle waits are left out. For `sync_db`, whether the wait happens is the `settled` flag.
- **`query_database_pages`** (notion_rag/notion_helpers.py:141-192) is an API pagination loop with a date filter. The page ids it returns are a parameter.
- **`list_documents`** (notion_rag/store.py:59-68) pages through the service's listing. The model reads the store's document sequence (`FileSearchService.Documents`) directly.
- **Environment and settings-file handling** is left out: `_load_settings`, the API-key checks with `sys.exit`, and writing settings.json. The registry is the `Registry` class.
- **`_scan_logs`** (notion_rag/billing.py:45-72) reads JSON log files. The parsed entries are a parameter.
- **Other files.** notion_rag/cli.py and notion_rag/server.py are not part of this model.
- **Billing.AggregateTotal:** costs are exact reals. `round(..., 8)` and floating-point error are not modelled.
- **Image.DescribeImage:** the same applies to the vision cost.
- **Config.CalcCost:** the same applies to every cost. `CalcCostAdditive` and `CalcCostSplit` hold exactly over reals, not over IEEE doubles.
- **Image.Classify:** upper-casing maps only ASCII letters. Python's `str.upper` maps all of Unicode, so a reply line such as "deſcription: x" (the long s upper-cases to S) or "descrıptıon: x" (the dotless i upper-cases to I) is a marker in the source and an unmarked line in the model.
- **Indexer.BuildHeader:** property values are text, lists of text or None. A list is shown with each item in single quotes. Python's `repr` puts an item that contains a single quote in double quotes and escapes backslashes; that difference is not modelled. Other Python value types are not modelled.
- **Billing.EntryCost:** a log entry's cost fields are numbers. Non-numeric JSON values are not modelled.
- **Indexer.IndexPage:** being unretrievable is the only failure modelled. Such a page is absent from the page map and fails before any change is made. Token counting runs before the old document is deleted (notion_rag/indexer.py:122-135). A failure after the delete, in the upload or its polling (notion_rag/indexer.py:141-157), is not modelled.
- **Indexer.InitDb:** the summary also lists the failed pages, which the source only logs.
- **Indexer.SyncDb:** a page that cannot be retrieved is logged as failed and the sync goes on. As written, the error handler of the first such page raises when no earlier page set `title` (see Findings); `SyncDb` models the intended behaviour.
- **Billing.BreakdownRows:** the rows' totals are not proved to add up to the overall total.
- **Extractor.ExtractBlocksWithImages:** the image details are always appended to the log. The source appends them only when a list is passed (notion_rag/extractor.py:133), and `index_page` passes none (notion_rag/indexer.py:96). `UploadPage` discards the log, so the indexed text and costs are the same.
- **Extractor.ExtractBlocksWithImages:** if the listing runs out while the last response still says `has_more`, the listing is treated as ended.

## Findings

| source | as written | input that shows it | evidently intended | confidence | as-written member | corrected member |
|---|---|---|---|---|---|---|
| notion_rag/notion_helpers.py:46 | `re.match(r"^[a-f0-9]{32}$", clean)` accepts a trailing newline, because `$` also matches before a final "\n"; the 33-character string with the newline is returned as the id | 32 lowercase hex digits followed by "\n" (the same check is at notion_rag/notion_helpers.py:86) | accept exactly 32 hex digits and return them | not executed | NotionHelpers.AsWrittenAcceptsTrailingNewline | NotionHelpers.ExtractPageId |
| notion_rag/indexer.py:341-370 | the `except` handler of `sync_db` passes `title` to `log_indexing`, but `title` is first assigned inside the `try` after `get_page_properties` returns; the handler raises `UnboundLocalError` and `sync_db` stops | a sync whose first queried page cannot be retrieved | log the page as failed and go on with the next page | not executed | Indexer.SyncAsWrittenAborts | Indexer.SyncRunCounts |
