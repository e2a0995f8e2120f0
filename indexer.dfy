/** Page indexing and the `init_db` / `sync_db` loops of notion_rag/indexer.py.

    The Notion and Gemini services enter as data: a page that can be retrieved is a
    `PageSource` in the `pages` map (its record, its block listing and the token count
    the embedding model reports for its upload), and a page missing from the map is one
    whose retrieval raises. The page ids a database query returns are a parameter. */
module Indexer {
  import opened Wrappers
  import opened Strings
  import opened NotionHelpers
  import opened Config
  import opened Extractor
  import opened Store

  /** What the services answer for one page. */
  datatype PageSource = PageSource(record: PageRecord, blocks: seq<Batch>, tokens: nat)

  /** The page as `index_page` sees it: None when retrieving it raises. */
  function Source(pages: map<string, PageSource>, pageId: string): Option<PageSource> {
    if pageId in pages then Some(pages[pageId]) else None
  }

  // ---------------------------------------------------------------------------
  // The uploaded text
  // ---------------------------------------------------------------------------

  /** `props.get(key, default)`. */
  function PropOr(props: map<string, PropValue>, key: string, default: PropValue): PropValue {
    if key in props then props[key] else default
  }

  /** Python truthiness of a property value. */
  predicate Truthy(v: PropValue) {
    match v
    case TextValue(t) => t != ""
    case ListValue(items) => |items| > 0
    case NullValue => false
  }

  function Quoted(items: seq<string>): (r: seq<string>)
    ensures |r| == |items|
  {
    seq(|items|, i requires 0 <= i < |items| => "'" + items[i] + "'")
  }

  /** A property value interpolated into an f-string. */
  function Show(v: PropValue): string {
    match v
    case TextValue(t) => t
    case ListValue(items) => "[" + Join(Quoted(items), ", ") + "]"
    case NullValue => "None"
  }

  /** The tags: a list is joined with ", ", anything else is interpolated. */
  function ShowTags(v: PropValue): string {
    if v.ListValue? then Join(v.items, ", ") else Show(v)
  }

  function Title(props: map<string, PropValue>): string {
    Show(PropOr(props, "title", TextValue("Untitled")))
  }

  function DocType(props: map<string, PropValue>): PropValue {
    PropOr(props, "Type", TextValue(""))
  }

  function Tags(props: map<string, PropValue>): PropValue {
    PropOr(props, "Tags", ListValue([]))
  }

  function RefUrl(props: map<string, PropValue>): PropValue {
    PropOr(props, "URL", TextValue(""))
  }

  function TitleLine(props: map<string, PropValue>): string {
    "[Title: " + Title(props) + "]"
  }

  function TypeLine(props: map<string, PropValue>): string {
    "[Type: " + Show(DocType(props)) + "]"
  }

  function TagsLine(props: map<string, PropValue>): string {
    "[Tags: " + ShowTags(Tags(props)) + "]"
  }

  function ReferenceLine(props: map<string, PropValue>): string {
    "[Reference: " + Show(RefUrl(props)) + "]"
  }

  /** `header += "\n" + line` when `present`. */
  function AddLine(header: string, present: bool, line: string): string {
    if present then header + "\n" + line else header
  }

  function OptLine(present: bool, line: string): seq<string> {
    if present then [line] else []
  }

  /** The header, built as `index_page` builds it: the title line, then each optional
      line that applies, each after a newline. */
  function Header(props: map<string, PropValue>): string {
    AddLine(AddLine(AddLine(TitleLine(props), Truthy(DocType(props)), TypeLine(props)),
                    Truthy(Tags(props)), TagsLine(props)),
            Truthy(RefUrl(props)), ReferenceLine(props))
  }

  /** The header's lines, in order: title, then type, tags and reference when present. */
  function HeaderLines(props: map<string, PropValue>): (r: seq<string>)
    ensures 1 <= |r| <= 4
    ensures r[0] == TitleLine(props)
  {
    [TitleLine(props)] + OptLine(Truthy(DocType(props)), TypeLine(props))
    + OptLine(Truthy(Tags(props)), TagsLine(props)) + OptLine(Truthy(RefUrl(props)), ReferenceLine(props))
  }

  lemma AddLineJoin(lines: seq<string>, present: bool, line: string)
    requires lines != []
    ensures AddLine(Join(lines, "\n"), present, line) == Join(lines + OptLine(present, line), "\n")
  {
    if present {
      JoinSnoc(lines, line, "\n");
    } else {
      assert lines + OptLine(present, line) == lines;
    }
  }

  /** The header is its lines joined by newlines. */
  lemma HeaderIsJoin(props: map<string, PropValue>)
    ensures Header(props) == Join(HeaderLines(props), "\n")
  {
    var l0 := [TitleLine(props)];
    var l1 := l0 + OptLine(Truthy(DocType(props)), TypeLine(props));
    var l2 := l1 + OptLine(Truthy(Tags(props)), TagsLine(props));
    var l3 := l2 + OptLine(Truthy(RefUrl(props)), ReferenceLine(props));
    AddLineJoin(l0, Truthy(DocType(props)), TypeLine(props));
    AddLineJoin(l1, Truthy(Tags(props)), TagsLine(props));
    AddLineJoin(l2, Truthy(RefUrl(props)), ReferenceLine(props));
  }

  /** When no value holds a newline, reading the header line by line gives back the title
      line and exactly the optional lines whose values are set, in order. */
  lemma HeaderSplitsIntoLines(props: map<string, PropValue>)
    requires forall k :: 0 <= k < |HeaderLines(props)| ==> '\n' !in HeaderLines(props)[k]
    ensures Split(Header(props), '\n') == HeaderLines(props)
    ensures |Split(Header(props), '\n')|
            == 1 + |OptLine(Truthy(DocType(props)), TypeLine(props))| + |OptLine(Truthy(Tags(props)), TagsLine(props))|
                 + |OptLine(Truthy(RefUrl(props)), ReferenceLine(props))|
  {
    HeaderIsJoin(props);
    JoinSplit(HeaderLines(props), '\n');
  }

  /** One `header += "\n" + line` step of `index_page`, taken when the value is set. */
  method AppendLine(header: string, present: bool, line: string) returns (r: string)
    ensures r == AddLine(header, present, line)
  {
    r := header;
    if present {
      r := r + "\n" + line;
    }
  }

  /** The header `index_page` builds, line by line. */
  method BuildHeader(props: map<string, PropValue>) returns (header: string)
    ensures header == Header(props)
  {
    var title := Show(PropOr(props, "title", TextValue("Untitled")));
    var docType := PropOr(props, "Type", TextValue(""));
    var tags := PropOr(props, "Tags", ListValue([]));
    var refUrl := PropOr(props, "URL", TextValue(""));
    header := "[Title: " + title + "]";
    header := AppendLine(header, Truthy(docType), "[Type: " + Show(docType) + "]");
    header := AppendLine(header, Truthy(tags), "[Tags: " + ShowTags(tags) + "]");
    header := AppendLine(header, Truthy(refUrl), "[Reference: " + Show(refUrl) + "]");
  }

  /** The uploaded text: header, separator, content. */
  function FullText(props: map<string, PropValue>, content: string): string {
    Header(props) + "\n---\n" + content
  }

  lemma FullTextParts(props: map<string, PropValue>, content: string)
    ensures StartsWith(FullText(props, content), TitleLine(props))
    ensures FullText(props, content)[|Header(props)|..|Header(props)| + 5] == "\n---\n"
    ensures EndsWith(FullText(props, content), content)
  {
    var t := FullText(props, content);
    var titleLine := TitleLine(props);
    assert Header(props)[..|titleLine|] == titleLine;
    assert t[..|titleLine|] == Header(props)[..|titleLine|];
    assert t[|t| - |content|..] == content;
  }

  /** The document's display name. */
  function DisplayName(pageId: string, title: string): (r: string)
    ensures |r| <= |pageId| + 53
    ensures StartsWith(r, "[" + pageId + "] ")
    ensures r[|pageId| + 3..] == Take(title, 50)
  {
    "[" + pageId + "] " + Take(title, 50)
  }

  /** The custom metadata of an upload. */
  function UploadMetadata(lastEdited: string, pageId: string): seq<Meta> {
    [Meta("last_edited", Some(lastEdited)), Meta("page_id", Some(pageId))]
  }

  /** An uploaded document is filed under its page id and reports its timestamp. */
  lemma UploadMetadataRoundTrip(id: nat, display: string, lastEdited: string, pageId: string, text: string, p: string)
    ensures var doc := Document(id, display, UploadMetadata(lastEdited, pageId), text);
            DocumentLastEdited(Some(doc)) == lastEdited
            && HasPageId(doc, pageId)
            && (HasPageId(doc, p) ==> p == pageId)
  {
    var doc := Document(id, display, UploadMetadata(lastEdited, pageId), text);
    assert IsPageIdEntry(doc.metadata[1], pageId);
    assert doc.metadata[1..] == [Meta("page_id", Some(pageId))];
  }

  /** The document `index_page` uploads for a page. */
  function NewDocument(id: nat, pageId: string, source: PageSource): Document {
    var props := PageProperties(source.record);
    Document(id, DisplayName(pageId, Title(props)),
             UploadMetadata(Show(PropOr(props, "last_edited", TextValue(""))), pageId),
             FullText(props, Render(source.blocks, 0)))
  }

  // ---------------------------------------------------------------------------
  // index_page
  // ---------------------------------------------------------------------------

  /** The answer of one `index_page` call and the service state after it. */
  datatype Indexed = Indexed(result: Result<(real, real)>, stores: seq<FileStore>, nextId: nat)

  /** An existing document is up to date when reindexing is not forced and it carries the
      page's current `last_edited_time`. */
  predicate UpToDate(existing: Option<Document>, record: PageRecord, reindex: bool) {
    existing.Some? && !reindex && record.lastEditedTime.GetOr("") == DocumentLastEdited(existing)
  }

  const RetrieveError: string := "page could not be retrieved"

  /** `index_page`: nothing happens to an up-to-date document; otherwise the old document,
      if any, is deleted and the page's text is uploaded, at the embedding price of its
      tokens plus the cost of its image analysis. */
  function IndexPageSpec(stores: seq<FileStore>, nextId: nat, storeId: nat, pageId: string,
                         source: Option<PageSource>, reindex: bool): (r: Indexed)
    ensures r.result.Ok? <==> source.Some?
    ensures r.result.Err? ==> r.stores == stores && r.nextId == nextId
    ensures r.result.Ok? ==> r.result.value.0 >= 0.0
  {
    var existing := FoundDocument(DocumentsOf(stores, storeId), pageId);
    if source.None? then Indexed(Err(RetrieveError), stores, nextId)
    else if UpToDate(existing, source.value.record, reindex) then Indexed(Ok((0.0, 0.0)), stores, nextId)
    else
      Indexed(Ok((CalcCost(EmbeddingModel, source.value.tokens), ListingCost(source.value.blocks))),
              WithUpload(Cleared(stores, existing), storeId, NewDocument(nextId, pageId, source.value)), nextId + 1)
  }

  /** The stores once the document being replaced, if any, is deleted. */
  function Cleared(stores: seq<FileStore>, existing: Option<Document>): seq<FileStore> {
    if existing.Some? then WithoutDocument(stores, existing.value.id) else stores
  }

  /** `index_page` against the live service. */
  method IndexPage(svc: FileSearchService, store: FileStore, pageId: string, source: Option<PageSource>, reindex: bool)
    returns (r: Result<(real, real)>)
    requires svc.Valid()
    modifies svc
    ensures svc.Valid()
    ensures var o := IndexPageSpec(old(svc.stores), old(svc.nextId), store.id, pageId, source, reindex);
            r == o.result && svc.stores == o.stores && svc.nextId == o.nextId
  {
    var existing := FindDocument(svc.Documents(store.id), pageId);
    var reindexNow := reindex;
    if existing.Some? && !reindex {
      if source.None? {
        return Err(RetrieveError);
      }
      var currentEdited := source.value.record.lastEditedTime.GetOr("");
      var oldEdited := GetDocumentLastEdited(existing);
      if currentEdited == oldEdited {
        return Ok((0.0, 0.0));
      }
      reindexNow := true;
    }
    if source.None? {
      return Err(RetrieveError);
    }
    var costs := UploadPage(svc, store, pageId, source.value, if reindexNow then existing else None);
    return Ok(costs);
  }

  /** The second half of `index_page`: extract the page, build its text, delete the
      document it replaces and upload. */
  method UploadPage(svc: FileSearchService, store: FileStore, pageId: string, source: PageSource, existing: Option<Document>)
    returns (costs: (real, real))
    requires svc.Valid()
    modifies svc
    ensures svc.Valid()
    ensures costs == (CalcCost(EmbeddingModel, source.tokens), ListingCost(source.blocks))
    ensures svc.stores == WithUpload(Cleared(old(svc.stores), existing), store.id, NewDocument(old(svc.nextId), pageId, source))
    ensures svc.nextId == old(svc.nextId) + 1
  {
    var props := GetPageProperties(source.record);
    var title := Show(PropOr(props, "title", TextValue("Untitled")));
    var lastEdited := Show(PropOr(props, "last_edited", TextValue("")));
    var log := new ImageLog();
    var content, imageCost := ExtractBlocksWithImages(source.blocks, 0, log);
    var header := BuildHeader(props);
    var fullText := header + "\n---\n" + content;
    var indexingCost := CalcCost(EmbeddingModel, source.tokens);
    if existing.Some? {
      svc.DeleteDocument(existing.value.id);
    }
    var doc := svc.Upload(store.id, DisplayName(pageId, title), UploadMetadata(lastEdited, pageId), fullText);
    costs := (indexingCost, imageCost);
  }

  /** Removing documents keeps at most one document per page id. */
  lemma {:induction false} RemoveKeepsUnique(docs: seq<Document>, id: nat)
    requires UniquePageIds(docs)
    ensures UniquePageIds(RemoveDocument(docs, id))
  {
    if |docs| > 0 {
      var tail := docs[1..];
      assert UniquePageIds(tail) by {
        forall i, j, p | 0 <= i < |tail| && 0 <= j < |tail| && HasPageId(tail[i], p) && HasPageId(tail[j], p)
          ensures i == j
        {
          assert tail[i] == docs[i + 1] && tail[j] == docs[j + 1];
        }
      }
      RemoveKeepsUnique(tail, id);
      var rest := RemoveDocument(tail, id);
      if docs[0].id != id {
        var r := [docs[0]] + rest;
        forall i, j, p | 0 <= i < |r| && 0 <= j < |r| && HasPageId(r[i], p) && HasPageId(r[j], p)
          ensures i == j
        {
          if i > 0 && j > 0 {
            assert r[i] == rest[i - 1] && r[j] == rest[j - 1];
          }
        }
      }
    }
  }

  /** Appending a document filed only under `pageId` to a listing with none keeps it unique. */
  lemma AppendKeepsUnique(docs: seq<Document>, doc: Document, pageId: string)
    requires UniquePageIds(docs)
    requires forall k :: 0 <= k < |docs| ==> !HasPageId(docs[k], pageId)
    requires forall p :: HasPageId(doc, p) ==> p == pageId
    ensures UniquePageIds(docs + [doc])
  {
    var r := docs + [doc];
    forall i, j, p | 0 <= i < |r| && 0 <= j < |r| && HasPageId(r[i], p) && HasPageId(r[j], p)
      ensures i == j
    {
      if i < |docs| && j < |docs| {
        assert r[i] == docs[i] && r[j] == docs[j];
      }
    }
  }

  /** With at most one document per page id, no document is left under `pageId` once the
      one `find_document` returned is deleted. */
  lemma ClearedHasNone(docs: seq<Document>, pageId: string)
    requires UniquePageIds(docs)
    ensures var existing := FoundDocument(docs, pageId);
            var cleared := if existing.Some? then RemoveDocument(docs, existing.value.id) else docs;
            forall k :: 0 <= k < |cleared| ==> !HasPageId(cleared[k], pageId)
  {
    var existing := FoundDocument(docs, pageId);
    if existing.Some? {
      var i := FirstWithPageId(docs, pageId).value;
      var cleared := RemoveDocument(docs, existing.value.id);
      forall k | 0 <= k < |cleared| ensures !HasPageId(cleared[k], pageId) {
        assert cleared[k] in docs;
        var m :| 0 <= m < |docs| && docs[m] == cleared[k];
      }
    }
  }

  /** After a page is (re)indexed into a listing with at most one document per page id,
      the listing still has at most one, and `find_document` returns the new upload. */
  lemma IndexedDocumentFound(stores: seq<FileStore>, nextId: nat, storeId: nat, pageId: string,
                             source: PageSource, reindex: bool)
    requires StoreWithId(stores, storeId).Some?
    requires UniquePageIds(DocumentsOf(stores, storeId))
    requires !UpToDate(FoundDocument(DocumentsOf(stores, storeId), pageId), source.record, reindex)
    ensures var o := IndexPageSpec(stores, nextId, storeId, pageId, Some(source), reindex);
            UniquePageIds(DocumentsOf(o.stores, storeId))
            && FoundDocument(DocumentsOf(o.stores, storeId), pageId) == Some(NewDocument(nextId, pageId, source))
  {
    var docs := DocumentsOf(stores, storeId);
    var existing := FoundDocument(docs, pageId);
    var cleared := Cleared(stores, existing);
    var clearedDocs := if existing.Some? then RemoveDocument(docs, existing.value.id) else docs;
    var doc := NewDocument(nextId, pageId, source);
    if existing.Some? {
      DocumentsAfterDelete(stores, storeId, existing.value.id);
      RemoveKeepsUnique(docs, existing.value.id);
      SameIdsSamePosition(cleared, stores, storeId);
    }
    assert DocumentsOf(cleared, storeId) == clearedDocs;
    DocumentsAfterUpload(cleared, storeId, doc);
    ClearedHasNone(docs, pageId);
    forall p | HasPageId(doc, p) ensures p == pageId {
      UploadMetadataRoundTrip(doc.id, doc.displayName, DocumentLastEdited(Some(doc)), pageId, doc.text, p);
    }
    UploadMetadataRoundTrip(doc.id, doc.displayName, Show(PropOr(PageProperties(source.record), "last_edited", TextValue(""))), pageId, doc.text, pageId);
    AppendKeepsUnique(clearedDocs, doc, pageId);
    FoundIsFirst(clearedDocs + [doc], pageId, |clearedDocs|);
  }

  /** Indexing a page and then indexing it again, unchanged and without forcing, uploads
      nothing the second time: the upload records the timestamp the check compares,
      provided no page property overrides `last_edited`. */
  lemma ReindexIsUpToDate(stores: seq<FileStore>, nextId: nat, storeId: nat, pageId: string,
                          source: PageSource, reindex: bool)
    requires StoreWithId(stores, storeId).Some?
    requires UniquePageIds(DocumentsOf(stores, storeId))
    requires !UpToDate(FoundDocument(DocumentsOf(stores, storeId), pageId), source.record, reindex)
    requires forall j :: 0 <= j < |source.record.properties| ==> !WritesKey(source.record.properties[j], "last_edited")
    ensures var o := IndexPageSpec(stores, nextId, storeId, pageId, Some(source), reindex);
            IndexPageSpec(o.stores, o.nextId, storeId, pageId, Some(source), false) == Indexed(Ok((0.0, 0.0)), o.stores, o.nextId)
  {
    IndexedDocumentFound(stores, nextId, storeId, pageId, source, reindex);
    var doc := NewDocument(nextId, pageId, source);
    var props := PageProperties(source.record);
    PagePropertiesBase(source.record);
    assert PropOr(props, "last_edited", TextValue("")) == TextValue(source.record.lastEditedTime.GetOr(""));
    UploadMetadataRoundTrip(doc.id, doc.displayName, source.record.lastEditedTime.GetOr(""), pageId, doc.text, pageId);
  }

  // ---------------------------------------------------------------------------
  // init_db and sync_db
  // ---------------------------------------------------------------------------

  /** The accumulators of a page loop together with the service state. `done` counts the
      pages indexed (init) or updated (sync); `failed` lists the pages logged as errors. */
  datatype Run = Run(stores: seq<FileStore>, nextId: nat, done: nat, skipped: nat, failed: seq<string>,
                     indexingCost: real, imageCost: real)

  function StartRun(stores: seq<FileStore>, nextId: nat): Run {
    Run(stores, nextId, 0, 0, [], 0.0, 0.0)
  }

  /** The run after one successful or failed `index_page` call. */
  function Record(run: Run, pageId: string, o: Indexed): Run {
    if o.result.Ok? then
      run.(stores := o.stores, nextId := o.nextId, done := run.done + 1,
           indexingCost := run.indexingCost + o.result.value.0, imageCost := run.imageCost + o.result.value.1)
    else run.(failed := run.failed + [pageId])
  }

  /** One iteration of the `init_db` loop: index without forcing; a failure is recorded. */
  function InitStep(run: Run, storeId: nat, pages: map<string, PageSource>, pageId: string): Run {
    Record(run, pageId, IndexPageSpec(run.stores, run.nextId, storeId, pageId, Source(pages, pageId), false))
  }

  function InitRun(start: Run, storeId: nat, pages: map<string, PageSource>, pageIds: seq<string>): Run {
    if |pageIds| == 0 then start
    else InitStep(InitRun(start, storeId, pages, pageIds[..|pageIds| - 1]), storeId, pages, pageIds[|pageIds| - 1])
  }

  /** The last-edited value `sync_db` reads from the page properties. */
  function CurrentEdited(source: PageSource): PropValue {
    PropOr(PageProperties(source.record), "last_edited", TextValue(""))
  }

  /** The timestamp recorded for a page in the documents map, "" when it is not there. */
  function StoredEdited(docMap: map<string, Document>, pageId: string): string {
    if pageId in docMap then DocumentLastEdited(Some(docMap[pageId])) else ""
  }

  /** `sync_db` skips a page exactly when its timestamp equals the stored one and the
      sync is not forced. */
  predicate Skips(docMap: map<string, Document>, force: bool, pageId: string, source: PageSource) {
    CurrentEdited(source) == TextValue(StoredEdited(docMap, pageId)) && !force
  }

  /** One iteration of the `sync_db` loop. */
  function SyncStep(run: Run, storeId: nat, docMap: map<string, Document>, force: bool,
                    pages: map<string, PageSource>, pageId: string): Run {
    if pageId !in pages then run.(failed := run.failed + [pageId])
    else if Skips(docMap, force, pageId, pages[pageId]) then run.(skipped := run.skipped + 1)
    else Record(run, pageId, IndexPageSpec(run.stores, run.nextId, storeId, pageId, Source(pages, pageId), true))
  }

  function SyncRun(start: Run, storeId: nat, docMap: map<string, Document>, force: bool,
                   pages: map<string, PageSource>, pageIds: seq<string>): Run {
    if |pageIds| == 0 then start
    else SyncStep(SyncRun(start, storeId, docMap, force, pages, pageIds[..|pageIds| - 1]),
                  storeId, docMap, force, pages, pageIds[|pageIds| - 1])
  }

  /** The page ids whose retrieval raises, in order. */
  function Missing(pages: map<string, PageSource>, pageIds: seq<string>): (r: seq<string>)
    ensures |r| <= |pageIds|
    ensures forall x :: x in r <==> x in pageIds && x !in pages
  {
    if |pageIds| == 0 then []
    else
      var n := |pageIds|;
      Missing(pages, pageIds[..n - 1]) + (if pageIds[n - 1] in pages then [] else [pageIds[n - 1]])
  }

  /** In `init_db` every page is either indexed or logged as failed, and exactly the pages
      that cannot be retrieved fail. */
  lemma {:induction false} InitRunCounts(start: Run, storeId: nat, pages: map<string, PageSource>, pageIds: seq<string>)
    ensures var run := InitRun(start, storeId, pages, pageIds);
            run.failed == start.failed + Missing(pages, pageIds)
            && run.done == start.done + |pageIds| - |Missing(pages, pageIds)|
            && run.skipped == start.skipped
  {
    if |pageIds| > 0 {
      var init, pageId := pageIds[..|pageIds| - 1], pageIds[|pageIds| - 1];
      InitRunCounts(start, storeId, pages, init);
      ConcatAssoc(start.failed, Missing(pages, init), if pageId in pages then [] else [pageId]);
    }
  }

  /** In `sync_db` every page is updated, skipped or logged as failed, exactly the pages
      that cannot be retrieved fail, and a forced sync skips nothing. */
  lemma {:induction false} SyncRunCounts(start: Run, storeId: nat, docMap: map<string, Document>, force: bool,
                                         pages: map<string, PageSource>, pageIds: seq<string>)
    ensures var run := SyncRun(start, storeId, docMap, force, pages, pageIds);
            run.failed == start.failed + Missing(pages, pageIds)
            && run.done + run.skipped == start.done + start.skipped + |pageIds| - |Missing(pages, pageIds)|
            && (force ==> run.skipped == start.skipped)
  {
    if |pageIds| > 0 {
      var init, pageId := pageIds[..|pageIds| - 1], pageIds[|pageIds| - 1];
      SyncRunCounts(start, storeId, docMap, force, pages, init);
      ConcatAssoc(start.failed, Missing(pages, init), if pageId in pages then [] else [pageId]);
    }
  }

  /** A sync in which every page is retrievable and skipped changes nothing and costs
      nothing. */
  lemma {:induction false} SyncAllSkipped(start: Run, storeId: nat, docMap: map<string, Document>, force: bool,
                                          pages: map<string, PageSource>, pageIds: seq<string>)
    requires forall k :: 0 <= k < |pageIds| ==> pageIds[k] in pages && Skips(docMap, force, pageIds[k], pages[pageIds[k]])
    ensures SyncRun(start, storeId, docMap, force, pages, pageIds) == start.(skipped := start.skipped + |pageIds|)
  {
    if |pageIds| > 0 {
      SyncAllSkipped(start, storeId, docMap, force, pages, pageIds[..|pageIds| - 1]);
    }
  }

  /** The indexing cost of a run never decreases. */
  lemma {:induction false} InitCostGrows(start: Run, storeId: nat, pages: map<string, PageSource>, pageIds: seq<string>)
    ensures InitRun(start, storeId, pages, pageIds).indexingCost >= start.indexingCost
  {
    if |pageIds| > 0 {
      InitCostGrows(start, storeId, pages, pageIds[..|pageIds| - 1]);
    }
  }

  /** Indexing a page hands out resource names only from `nextId` on. */
  lemma IndexKeepsIdsBelow(stores: seq<FileStore>, nextId: nat, storeId: nat, pageId: string,
                           source: Option<PageSource>, reindex: bool)
    requires IdsBelow(stores, nextId)
    ensures var o := IndexPageSpec(stores, nextId, storeId, pageId, source, reindex);
            IdsBelow(o.stores, o.nextId) && o.nextId >= nextId
  {
    var o := IndexPageSpec(stores, nextId, storeId, pageId, source, reindex);
    if o.stores != stores {
      var existing := FoundDocument(DocumentsOf(stores, storeId), pageId);
      if existing.Some? {
        IdsBelowWithout(stores, existing.value.id, nextId);
      }
      IdsBelowRaise(Cleared(stores, existing), nextId, nextId + 1);
      IdsBelowUpload(Cleared(stores, existing), storeId, NewDocument(nextId, pageId, source.value), nextId + 1);
    }
  }

  /** Indexing a page changes documents only: the stores, their names and order stay. */
  lemma IndexKeepsShelves(stores: seq<FileStore>, nextId: nat, storeId: nat, pageId: string,
                          source: Option<PageSource>, reindex: bool)
    ensures SameShelves(stores, IndexPageSpec(stores, nextId, storeId, pageId, source, reindex).stores)
  {
    var o := IndexPageSpec(stores, nextId, storeId, pageId, source, reindex);
    if o.stores != stores {
      var existing := FoundDocument(DocumentsOf(stores, storeId), pageId);
      SameShelvesTrans(stores, Cleared(stores, existing), o.stores);
    }
  }

  lemma {:induction false} InitRunKeepsShelves(start: Run, storeId: nat, pages: map<string, PageSource>, pageIds: seq<string>)
    ensures SameShelves(start.stores, InitRun(start, storeId, pages, pageIds).stores)
  {
    if |pageIds| > 0 {
      var init, pageId := pageIds[..|pageIds| - 1], pageIds[|pageIds| - 1];
      InitRunKeepsShelves(start, storeId, pages, init);
      var run := InitRun(start, storeId, pages, init);
      IndexKeepsShelves(run.stores, run.nextId, storeId, pageId, Source(pages, pageId), false);
      SameShelvesTrans(start.stores, run.stores, InitStep(run, storeId, pages, pageId).stores);
    }
  }

  lemma {:induction false} SyncRunKeepsShelves(start: Run, storeId: nat, docMap: map<string, Document>, force: bool,
                                               pages: map<string, PageSource>, pageIds: seq<string>)
    ensures SameShelves(start.stores, SyncRun(start, storeId, docMap, force, pages, pageIds).stores)
  {
    if |pageIds| > 0 {
      var init, pageId := pageIds[..|pageIds| - 1], pageIds[|pageIds| - 1];
      SyncRunKeepsShelves(start, storeId, docMap, force, pages, init);
      var run := SyncRun(start, storeId, docMap, force, pages, init);
      IndexKeepsShelves(run.stores, run.nextId, storeId, pageId, Source(pages, pageId), true);
      SameShelvesTrans(start.stores, run.stores, SyncStep(run, storeId, docMap, force, pages, pageId).stores);
    }
  }

  /** Over a whole `init_db` loop, every resource name stays below the next one. */
  lemma {:induction false} InitRunKeepsIdsBelow(start: Run, storeId: nat, pages: map<string, PageSource>, pageIds: seq<string>)
    requires IdsBelow(start.stores, start.nextId)
    ensures var run := InitRun(start, storeId, pages, pageIds);
            IdsBelow(run.stores, run.nextId) && run.nextId >= start.nextId
  {
    if |pageIds| > 0 {
      var init, pageId := pageIds[..|pageIds| - 1], pageIds[|pageIds| - 1];
      InitRunKeepsIdsBelow(start, storeId, pages, init);
      var run := InitRun(start, storeId, pages, init);
      IndexKeepsIdsBelow(run.stores, run.nextId, storeId, pageId, Source(pages, pageId), false);
    }
  }

  /** Over a whole `sync_db` loop, every resource name stays below the next one. */
  lemma {:induction false} SyncRunKeepsIdsBelow(start: Run, storeId: nat, docMap: map<string, Document>, force: bool,
                                                pages: map<string, PageSource>, pageIds: seq<string>)
    requires IdsBelow(start.stores, start.nextId)
    ensures var run := SyncRun(start, storeId, docMap, force, pages, pageIds);
            IdsBelow(run.stores, run.nextId) && run.nextId >= start.nextId
  {
    if |pageIds| > 0 {
      var init, pageId := pageIds[..|pageIds| - 1], pageIds[|pageIds| - 1];
      SyncRunKeepsIdsBelow(start, storeId, docMap, force, pages, init);
      var run := SyncRun(start, storeId, docMap, force, pages, init);
      IndexKeepsIdsBelow(run.stores, run.nextId, storeId, pageId, Source(pages, pageId), true);
    }
  }

  /** One iteration of the `init_db` loop, on the accumulators `run`: the page is indexed
      and its costs added, or it is logged as failed. */
  method InitPage(svc: FileSearchService, store: FileStore, pages: map<string, PageSource>, pageId: string, run: Run)
    returns (next: Run)
    requires svc.Valid()
    modifies svc
    requires svc.stores == run.stores && svc.nextId == run.nextId
    ensures svc.Valid()
    ensures next == InitStep(run, store.id, pages, pageId)
    ensures svc.stores == next.stores && svc.nextId == next.nextId
  {
    next := RecordPage(svc, store, pageId, Source(pages, pageId), false, run);
  }

  /** One `index_page` call inside a page loop, with its outcome recorded in `run`. */
  method RecordPage(svc: FileSearchService, store: FileStore, pageId: string, source: Option<PageSource>, reindex: bool,
                    run: Run)
    returns (next: Run)
    requires svc.Valid()
    modifies svc
    requires svc.stores == run.stores && svc.nextId == run.nextId
    ensures svc.Valid()
    ensures next == Record(run, pageId, IndexPageSpec(run.stores, run.nextId, store.id, pageId, source, reindex))
    ensures svc.stores == next.stores && svc.nextId == next.nextId
  {
    var r := IndexPage(svc, store, pageId, source, reindex);
    if r.Ok? {
      next := run.(stores := svc.stores, nextId := svc.nextId, done := run.done + 1,
                   indexingCost := run.indexingCost + r.value.0, imageCost := run.imageCost + r.value.1);
    } else {
      next := run.(failed := run.failed + [pageId]);
    }
  }

  /** The loop of `init_db` over the queried page ids. */
  method IndexPages(svc: FileSearchService, store: FileStore, pages: map<string, PageSource>, pageIds: seq<string>)
    returns (run: Run)
    requires svc.Valid()
    modifies svc
    ensures svc.Valid()
    ensures run == InitRun(StartRun(old(svc.stores), old(svc.nextId)), store.id, pages, pageIds)
    ensures svc.stores == run.stores && svc.nextId == run.nextId
  {
    var start := StartRun(svc.stores, svc.nextId);
    run := start;
    for i := 0 to |pageIds|
      invariant run == InitRun(start, store.id, pages, pageIds[..i])
      invariant svc.stores == run.stores && svc.nextId == run.nextId
      invariant svc.Valid()
    {
      assert pageIds[..i + 1][..i] == pageIds[..i];
      run := InitPage(svc, store, pages, pageIds[i], run);
    }
    assert pageIds[..|pageIds|] == pageIds;
  }

  /** The change check of the `sync_db` loop. */
  method CheckPage(docMap: map<string, Document>, force: bool, pageId: string, source: PageSource) returns (skip: bool)
    ensures skip == Skips(docMap, force, pageId, source)
  {
    var props := GetPageProperties(source.record);
    var currentEdited := PropOr(props, "last_edited", TextValue(""));
    var oldEdited := "";
    if pageId in docMap {
      oldEdited := GetDocumentLastEdited(Some(docMap[pageId]));
    }
    skip := currentEdited == TextValue(oldEdited) && !force;
  }

  /** One iteration of the `sync_db` loop, on the accumulators `run`: a page that cannot
      be retrieved is logged as failed, an unchanged one is skipped, any other is
      reindexed and its costs added. */
  method SyncPage(svc: FileSearchService, store: FileStore, docMap: map<string, Document>, force: bool,
                  pages: map<string, PageSource>, pageId: string, run: Run)
    returns (next: Run)
    requires svc.Valid()
    modifies svc
    requires svc.stores == run.stores && svc.nextId == run.nextId
    ensures svc.Valid()
    ensures next == SyncStep(run, store.id, docMap, force, pages, pageId)
    ensures svc.stores == next.stores && svc.nextId == next.nextId
  {
    SyncStepCases(run, store.id, docMap, force, pages, pageId);
    if pageId !in pages {
      return run.(failed := run.failed + [pageId]);
    }
    var skip := CheckPage(docMap, force, pageId, pages[pageId]);
    if skip {
      return run.(skipped := run.skipped + 1);
    }
    next := RecordPage(svc, store, pageId, Some(pages[pageId]), true, run);
  }

  /** The three outcomes of one `sync_db` iteration. */
  lemma SyncStepCases(run: Run, storeId: nat, docMap: map<string, Document>, force: bool,
                      pages: map<string, PageSource>, pageId: string)
    ensures pageId !in pages ==> SyncStep(run, storeId, docMap, force, pages, pageId) == run.(failed := run.failed + [pageId])
    ensures pageId in pages && Skips(docMap, force, pageId, pages[pageId]) ==>
              SyncStep(run, storeId, docMap, force, pages, pageId) == run.(skipped := run.skipped + 1)
    ensures pageId in pages && !Skips(docMap, force, pageId, pages[pageId]) ==>
              SyncStep(run, storeId, docMap, force, pages, pageId)
              == Record(run, pageId, IndexPageSpec(run.stores, run.nextId, storeId, pageId, Some(pages[pageId]), true))
  {
  }

  /** The loop of `sync_db` over the queried page ids, against the documents map built
      before it. */
  method SyncPages(svc: FileSearchService, store: FileStore, docMap: map<string, Document>, force: bool,
                   pages: map<string, PageSource>, pageIds: seq<string>)
    returns (run: Run)
    requires svc.Valid()
    modifies svc
    ensures svc.Valid()
    ensures run == SyncRun(StartRun(old(svc.stores), old(svc.nextId)), store.id, docMap, force, pages, pageIds)
    ensures svc.stores == run.stores && svc.nextId == run.nextId
  {
    var start := StartRun(svc.stores, svc.nextId);
    run := start;
    for i := 0 to |pageIds|
      invariant run == SyncRun(start, store.id, docMap, force, pages, pageIds[..i])
      invariant svc.stores == run.stores && svc.nextId == run.nextId
      invariant svc.Valid()
    {
      assert pageIds[..i + 1][..i] == pageIds[..i];
      run := SyncPage(svc, store, docMap, force, pages, pageIds[i], run);
    }
    assert pageIds[..|pageIds|] == pageIds;
  }

  /** The summary `init_db` returns, with the pages logged as failed. */
  datatype InitSummary = InitSummary(dbLabel: string, dbId: string, storeName: string, pagesTotal: nat,
                                     pagesIndexed: nat, failed: seq<string>,
                                     totalCost: real, indexingCost: real, imageCost: real)

  /** The summary `sync_db` returns; `settled` tells whether it waited for the index. */
  datatype SyncSummary = SyncSummary(dbLabel: string, dbId: string, pagesChecked: nat, pagesUpdated: nat,
                                     pagesSkipped: nat, failed: seq<string>,
                                     totalCost: real, indexingCost: real, imageCost: real, settled: bool)

  /** The outcome of `init_db` or `sync_db` and the service state after it. */
  datatype InitOutcome = InitOutcome(result: Result<InitSummary>, stores: seq<FileStore>, nextId: nat)

  datatype SyncOutcome = SyncOutcome(result: Result<SyncSummary>, stores: seq<FileStore>, nextId: nat)

  /** The (label, url) pair `init_db` works on: the pair given, which needs a label, or
      the one the registry resolves. */
  function InitTarget(databases: map<string, string>, dbLabel: Option<string>, dbUrl: Option<string>): (r: Result<(string, string)>)
    ensures dbUrl.Some? ==> (r.Ok? <==> dbLabel.Some?)
    ensures dbUrl.Some? && dbLabel.Some? ==> r.value == (dbLabel.value, dbUrl.value)
    ensures dbUrl.None? ==> r == ResolveDb(databases, dbLabel)
  {
    if dbUrl.Some? then
      if dbLabel.None? then Err("Label is required when providing a database URL")
      else Ok((dbLabel.value, dbUrl.value))
    else ResolveDb(databases, dbLabel)
  }

  /** `init_db` once the database id is known: the store is found or created, and every
      queried page indexed into it. */
  function IndexDatabase(stores: seq<FileStore>, nextId: nat, name: string, dbId: string,
                         pages: map<string, PageSource>, pageIds: seq<string>): (o: InitOutcome)
    ensures o.result.Ok? && o.result.value.dbLabel == name && o.result.value.dbId == dbId
    ensures o.result.value.storeName == DbStoreName(name) && o.result.value.pagesTotal == |pageIds|
  {
    var g := OpenStore(stores, nextId, DbStoreName(name));
    var run := InitRun(StartRun(g.stores, g.nextId), g.store.id, pages, pageIds);
    InitOutcome(Ok(InitSummary(name, dbId, DbStoreName(name), |pageIds|, run.done, run.failed,
                               run.indexingCost + run.imageCost, run.indexingCost, run.imageCost)),
                run.stores, run.nextId)
  }

  /** `sync_db` once the database id is known: the store is found or created, its
      documents map built once, and each queried page checked. */
  function SyncDatabase(stores: seq<FileStore>, nextId: nat, name: string, dbId: string, force: bool,
                        pages: map<string, PageSource>, pageIds: seq<string>): (o: SyncOutcome)
    ensures o.result.Ok? && o.result.value.dbLabel == name && o.result.value.dbId == dbId
    ensures o.result.value.pagesChecked == |pageIds|
  {
    var g := OpenStore(stores, nextId, DbStoreName(name));
    var docMap := DocumentsMap(DocumentsOf(g.stores, g.store.id));
    var run := SyncRun(StartRun(g.stores, g.nextId), g.store.id, docMap, force, pages, pageIds);
    SyncOutcome(Ok(SyncSummary(name, dbId, |pageIds|, run.done, run.skipped, run.failed,
                               run.indexingCost + run.imageCost, run.indexingCost, run.imageCost, run.done > 0)),
                run.stores, run.nextId)
  }

  /** What `init_db` reports once the database is known: one count per queried page, the
      failed pages being exactly the ones that cannot be retrieved, and the total the sum
      of the two costs. Resource names stay below the next free one. */
  lemma IndexDatabaseSummary(stores: seq<FileStore>, nextId: nat, name: string, dbId: string,
                             pages: map<string, PageSource>, pageIds: seq<string>)
    ensures var o := IndexDatabase(stores, nextId, name, dbId, pages, pageIds);
            var s := o.result.value;
            s.pagesIndexed + |s.failed| == |pageIds| && s.failed == Missing(pages, pageIds)
            && s.totalCost == s.indexingCost + s.imageCost && s.indexingCost >= 0.0
            && (IdsBelow(stores, nextId) ==> IdsBelow(o.stores, o.nextId))
  {
    var g := OpenStore(stores, nextId, DbStoreName(name));
    var start := StartRun(g.stores, g.nextId);
    InitRunCounts(start, g.store.id, pages, pageIds);
    InitCostGrows(start, g.store.id, pages, pageIds);
    if IdsBelow(stores, nextId) {
      IdsBelowOpen(stores, nextId, DbStoreName(name));
      InitRunKeepsIdsBelow(start, g.store.id, pages, pageIds);
    }
  }

  /** What `sync_db` reports once the database is known; `settled` holds exactly when
      some page was reindexed, and nothing is skipped when forced. */
  lemma SyncDatabaseSummary(stores: seq<FileStore>, nextId: nat, name: string, dbId: string, force: bool,
                            pages: map<string, PageSource>, pageIds: seq<string>)
    ensures var o := SyncDatabase(stores, nextId, name, dbId, force, pages, pageIds);
            var s := o.result.value;
            s.pagesUpdated + s.pagesSkipped + |s.failed| == |pageIds| && s.failed == Missing(pages, pageIds)
            && (force ==> s.pagesSkipped == 0) && (s.settled <==> s.pagesUpdated > 0)
            && s.totalCost == s.indexingCost + s.imageCost
            && (IdsBelow(stores, nextId) ==> IdsBelow(o.stores, o.nextId))
  {
    var g := OpenStore(stores, nextId, DbStoreName(name));
    var docMap := DocumentsMap(DocumentsOf(g.stores, g.store.id));
    var start := StartRun(g.stores, g.nextId);
    SyncRunCounts(start, g.store.id, docMap, force, pages, pageIds);
    if IdsBelow(stores, nextId) {
      IdsBelowOpen(stores, nextId, DbStoreName(name));
      SyncRunKeepsIdsBelow(start, g.store.id, docMap, force, pages, pageIds);
    }
  }

  /** The store `init_db` fills is the one its label names: running `init_db` or `sync_db`
      again for the same label opens that store and creates no second one. */
  lemma IndexDatabaseReusesStore(stores: seq<FileStore>, nextId: nat, name: string, dbId: string,
                                 pages: map<string, PageSource>, pageIds: seq<string>)
    ensures var o := IndexDatabase(stores, nextId, name, dbId, pages, pageIds);
            var again := OpenStore(o.stores, o.nextId, DbStoreName(name));
            again.stores == o.stores && again.nextId == o.nextId
            && again.store.id == OpenStore(stores, nextId, DbStoreName(name)).store.id
  {
    var g := OpenStore(stores, nextId, DbStoreName(name));
    var o := IndexDatabase(stores, nextId, name, dbId, pages, pageIds);
    InitRunKeepsShelves(StartRun(g.stores, g.nextId), g.store.id, pages, pageIds);
    ReopenSameStore(stores, nextId, DbStoreName(name), o.stores, o.nextId);
  }

  /** Likewise for `sync_db`: the store it updates is the one its label names. */
  lemma SyncDatabaseReusesStore(stores: seq<FileStore>, nextId: nat, name: string, dbId: string, force: bool,
                                pages: map<string, PageSource>, pageIds: seq<string>)
    ensures var o := SyncDatabase(stores, nextId, name, dbId, force, pages, pageIds);
            var again := OpenStore(o.stores, o.nextId, DbStoreName(name));
            again.stores == o.stores && again.nextId == o.nextId
            && again.store.id == OpenStore(stores, nextId, DbStoreName(name)).store.id
  {
    var g := OpenStore(stores, nextId, DbStoreName(name));
    var o := SyncDatabase(stores, nextId, name, dbId, force, pages, pageIds);
    var docMap := DocumentsMap(DocumentsOf(g.stores, g.store.id));
    SyncRunKeepsShelves(StartRun(g.stores, g.nextId), g.store.id, docMap, force, pages, pageIds);
    ReopenSameStore(stores, nextId, DbStoreName(name), o.stores, o.nextId);
  }

  /** `init_db` on the registry and the service state before it: the target's error, or
      the database id's error, with nothing changed; otherwise `IndexDatabase`. */
  function InitDbSpec(databases: map<string, string>, stores: seq<FileStore>, nextId: nat, dbLabel: Option<string>,
                      dbUrl: Option<string>, pages: map<string, PageSource>, pageIds: seq<string>): (o: InitOutcome)
    ensures var t := InitTarget(databases, dbLabel, dbUrl);
            (o.result.Ok? <==> t.Ok? && ExtractDbId(t.value.1).Ok?)
            && (o.result.Err? ==> o.stores == stores && o.nextId == nextId)
            && (t.Err? ==> o.result == Err(t.error))
            && (t.Ok? && ExtractDbId(t.value.1).Err? ==> o.result == Err(ExtractDbId(t.value.1).error))
            && (o.result.Ok? ==> o == IndexDatabase(stores, nextId, t.value.0, ExtractDbId(t.value.1).value, pages, pageIds))
  {
    match InitTarget(databases, dbLabel, dbUrl)
    case Err(e) => InitOutcome(Err(e), stores, nextId)
    case Ok(t) =>
      match ExtractDbId(t.1)
      case Err(e) => InitOutcome(Err(e), stores, nextId)
      case Ok(id) => IndexDatabase(stores, nextId, t.0, id, pages, pageIds)
  }

  /** `sync_db` on the registry and the service state before it. */
  function SyncDbSpec(databases: map<string, string>, stores: seq<FileStore>, nextId: nat, dbLabel: Option<string>,
                      force: bool, pages: map<string, PageSource>, pageIds: seq<string>): (o: SyncOutcome)
    ensures var t := ResolveDb(databases, dbLabel);
            (o.result.Ok? <==> t.Ok? && ExtractDbId(t.value.1).Ok?)
            && (o.result.Err? ==> o.stores == stores && o.nextId == nextId)
            && (t.Err? ==> o.result == Err(t.error))
            && (t.Ok? && ExtractDbId(t.value.1).Err? ==> o.result == Err(ExtractDbId(t.value.1).error))
            && (o.result.Ok? ==> o == SyncDatabase(stores, nextId, t.value.0, ExtractDbId(t.value.1).value, force, pages, pageIds))
  {
    match ResolveDb(databases, dbLabel)
    case Err(e) => SyncOutcome(Err(e), stores, nextId)
    case Ok(t) =>
      match ExtractDbId(t.1)
      case Err(e) => SyncOutcome(Err(e), stores, nextId)
      case Ok(id) => SyncDatabase(stores, nextId, t.0, id, force, pages, pageIds)
  }

  /** `IndexDatabase` once the store is open and the loop has run. */
  lemma IndexDatabaseOk(stores: seq<FileStore>, nextId: nat, name: string, dbId: string,
                        pages: map<string, PageSource>, pageIds: seq<string>, g: Opened, run: Run)
    requires g == OpenStore(stores, nextId, DbStoreName(name))
    requires run == InitRun(StartRun(g.stores, g.nextId), g.store.id, pages, pageIds)
    ensures IndexDatabase(stores, nextId, name, dbId, pages, pageIds)
            == InitOutcome(Ok(InitSummary(name, dbId, DbStoreName(name), |pageIds|, run.done, run.failed,
                                          run.indexingCost + run.imageCost, run.indexingCost, run.imageCost)),
                           run.stores, run.nextId)
  {
  }

  /** `SyncDatabase` once the store is open, its map built and the loop has run. */
  lemma SyncDatabaseOk(stores: seq<FileStore>, nextId: nat, name: string, dbId: string, force: bool,
                       pages: map<string, PageSource>, pageIds: seq<string>, g: Opened, docMap: map<string, Document>, run: Run)
    requires g == OpenStore(stores, nextId, DbStoreName(name))
    requires docMap == DocumentsMap(DocumentsOf(g.stores, g.store.id))
    requires run == SyncRun(StartRun(g.stores, g.nextId), g.store.id, docMap, force, pages, pageIds)
    ensures SyncDatabase(stores, nextId, name, dbId, force, pages, pageIds)
            == SyncOutcome(Ok(SyncSummary(name, dbId, |pageIds|, run.done, run.skipped, run.failed,
                                          run.indexingCost + run.imageCost, run.indexingCost, run.imageCost, run.done > 0)),
                           run.stores, run.nextId)
  {
  }

  /** The part of `init_db` after the database id is known, against the live service. */
  method IndexDatabaseInto(svc: FileSearchService, name: string, dbId: string,
                           pages: map<string, PageSource>, pageIds: seq<string>)
    returns (r: Result<InitSummary>)
    requires svc.Valid()
    modifies svc
    ensures svc.Valid()
    ensures var o := IndexDatabase(old(svc.stores), old(svc.nextId), name, dbId, pages, pageIds);
            r == o.result && svc.stores == o.stores && svc.nextId == o.nextId
  {
    ghost var stores, nextId := svc.stores, svc.nextId;
    var storeName := DbStoreName(name);
    var store, created := svc.GetOrCreateStore(storeName);
    ghost var g := Opened(store, svc.stores, svc.nextId);
    var run := IndexPages(svc, store, pages, pageIds);
    IndexDatabaseOk(stores, nextId, name, dbId, pages, pageIds, g, run);
    r := Ok(InitSummary(name, dbId, storeName, |pageIds|, run.done, run.failed,
                        run.indexingCost + run.imageCost, run.indexingCost, run.imageCost));
  }

  /** The part of `sync_db` after the database id is known, against the live service. */
  method SyncDatabaseInto(svc: FileSearchService, name: string, dbId: string, force: bool,
                          pages: map<string, PageSource>, pageIds: seq<string>)
    returns (r: Result<SyncSummary>)
    requires svc.Valid()
    modifies svc
    ensures svc.Valid()
    ensures var o := SyncDatabase(old(svc.stores), old(svc.nextId), name, dbId, force, pages, pageIds);
            r == o.result && svc.stores == o.stores && svc.nextId == o.nextId
  {
    ghost var stores, nextId := svc.stores, svc.nextId;
    var store, created := svc.GetOrCreateStore(DbStoreName(name));
    ghost var g := Opened(store, svc.stores, svc.nextId);
    var docMap := ListDocumentsMap(svc.Documents(store.id));
    var run := SyncPages(svc, store, docMap, force, pages, pageIds);
    SyncDatabaseOk(stores, nextId, name, dbId, force, pages, pageIds, g, docMap, run);
    r := Ok(SyncSummary(name, dbId, |pageIds|, run.done, run.skipped, run.failed,
                        run.indexingCost + run.imageCost, run.indexingCost, run.imageCost, run.done > 0));
  }

  /** `init_db`: registers or resolves the database, finds or creates its store and
      indexes every page the query returns. */
  method InitDb(registry: Registry, svc: FileSearchService, dbLabel: Option<string>, dbUrl: Option<string>,
                pages: map<string, PageSource>, pageIds: seq<string>)
    returns (r: Result<InitSummary>)
    requires svc.Valid()
    modifies registry, svc
    ensures svc.Valid()
    ensures dbUrl.Some? && dbLabel.None? ==> registry.databases == old(registry.databases)
    ensures dbUrl.Some? && dbLabel.Some? ==> registry.databases == old(registry.databases)[dbLabel.value := dbUrl.value]
    ensures dbUrl.None? ==> registry.databases == old(registry.databases)
    ensures var o := InitDbSpec(old(registry.databases), old(svc.stores), old(svc.nextId), dbLabel, dbUrl, pages, pageIds);
            r == o.result && svc.stores == o.stores && svc.nextId == o.nextId
  {
    var target := InitTarget(registry.databases, dbLabel, dbUrl);
    if target.Err? {
      return Err(target.error);
    }
    if dbUrl.Some? {
      registry.SaveDatabase(dbLabel.value, dbUrl.value);
    }
    var dbId := ExtractDbId(target.value.1);
    if dbId.Err? {
      return Err(dbId.error);
    }
    r := IndexDatabaseInto(svc, target.value.0, dbId.value, pages, pageIds);
  }

  /** `sync_db`: resolves the database, finds or creates its store, builds the documents
      map once, and reindexes the pages whose timestamps changed (all pages when forced). */
  method SyncDb(registry: Registry, svc: FileSearchService, dbLabel: Option<string>, force: bool,
                pages: map<string, PageSource>, pageIds: seq<string>)
    returns (r: Result<SyncSummary>)
    requires svc.Valid()
    modifies svc
    ensures svc.Valid()
    ensures var o := SyncDbSpec(registry.databases, old(svc.stores), old(svc.nextId), dbLabel, force, pages, pageIds);
            r == o.result && svc.stores == o.stores && svc.nextId == o.nextId
  {
    var resolved := ResolveDb(registry.databases, dbLabel);
    if resolved.Err? {
      return Err(resolved.error);
    }
    var dbId := ExtractDbId(resolved.value.1);
    if dbId.Err? {
      return Err(dbId.error);
    }
    r := SyncDatabaseInto(svc, resolved.value.0, dbId.value, force, pages, pageIds);
  }

  // ---------------------------------------------------------------------------
  // The sync loop as written
  // ---------------------------------------------------------------------------

  const UnboundTitle: string := "local variable 'title' referenced before assignment"

  /** The `sync_db` loop as the source has it: the error handler logs `title`, which is
      first assigned once a page's properties have been read. A page that cannot be
      retrieved before any page has been read makes the handler itself raise, and the
      sync stops. The flag tells whether `title` has been assigned. */
  function SyncRunAsWritten(start: Run, storeId: nat, docMap: map<string, Document>, force: bool,
                            pages: map<string, PageSource>, pageIds: seq<string>): Result<(Run, bool)>
  {
    if |pageIds| == 0 then Ok((start, false))
    else
      var pageId := pageIds[|pageIds| - 1];
      match SyncRunAsWritten(start, storeId, docMap, force, pages, pageIds[..|pageIds| - 1])
      case Err(e) => Err(e)
      case Ok(prev) =>
        if pageId !in pages && !prev.1 then Err(UnboundTitle)
        else Ok((SyncStep(prev.0, storeId, docMap, force, pages, pageId), prev.1 || pageId in pages))
  }

  /** When the first page cannot be retrieved, the loop as written stops with an error,
      where the intended loop logs the page as failed and goes on. */
  lemma {:induction false} SyncAsWrittenAborts(start: Run, storeId: nat, docMap: map<string, Document>, force: bool,
                                               pages: map<string, PageSource>, pageIds: seq<string>)
    requires |pageIds| > 0 && pageIds[0] !in pages
    ensures SyncRunAsWritten(start, storeId, docMap, force, pages, pageIds) == Err(UnboundTitle)
    ensures pageIds[0] in SyncRun(start, storeId, docMap, force, pages, pageIds).failed
  {
    if |pageIds| > 1 {
      var init := pageIds[..|pageIds| - 1];
      assert init[0] == pageIds[0];
      SyncAsWrittenAborts(start, storeId, docMap, force, pages, init);
    }
    SyncRunCounts(start, storeId, docMap, force, pages, pageIds);
  }

  /** When the first page can be retrieved, the loop as written and the intended loop agree. */
  lemma {:induction false} SyncAsWrittenAgrees(start: Run, storeId: nat, docMap: map<string, Document>, force: bool,
                                               pages: map<string, PageSource>, pageIds: seq<string>)
    requires |pageIds| > 0 && pageIds[0] in pages
    ensures SyncRunAsWritten(start, storeId, docMap, force, pages, pageIds)
            == Ok((SyncRun(start, storeId, docMap, force, pages, pageIds), true))
  {
    if |pageIds| > 1 {
      var init := pageIds[..|pageIds| - 1];
      assert init[0] == pageIds[0];
      SyncAsWrittenAgrees(start, storeId, docMap, force, pages, init);
    }
  }
}
