/** The FileSearch store and document lookups of notion_rag/store.py, over an
    in-memory model of the Gemini FileSearch service. Resource names, which the
    service assigns, are modelled as natural numbers. */
module Store {
  import opened Wrappers

  /** A `custom_metadata` entry; `value` is None when the entry has no string value. */
  datatype Meta = Meta(key: string, value: Option<string>)

  /** A FileSearch document: resource name, display name, custom metadata in order,
      and the uploaded text. */
  datatype Document = Document(id: nat, displayName: string, metadata: seq<Meta>, text: string)

  /** A FileSearch store: resource name, display name and documents in listing order. */
  datatype FileStore = FileStore(id: nat, displayName: string, documents: seq<Document>)

  /** `db_store_name`: a database label is used as its store's display name. */
  function DbStoreName(dbLabel: string): (r: string)
    ensures r == dbLabel
  {
    dbLabel
  }

  // ---------------------------------------------------------------------------
  // find_document
  // ---------------------------------------------------------------------------

  /** The entry `find_document` looks for. */
  predicate IsPageIdEntry(m: Meta, pageId: string) {
    m.key == "page_id" && m.value == Some(pageId)
  }

  predicate HasPageId(d: Document, pageId: string) {
    exists j :: 0 <= j < |d.metadata| && IsPageIdEntry(d.metadata[j], pageId)
  }

  /** The position of the first document filed under `pageId`. */
  function FirstWithPageId(docs: seq<Document>, pageId: string): (r: Option<nat>)
    ensures r.Some? ==> r.value < |docs| && HasPageId(docs[r.value], pageId)
    ensures r.Some? ==> forall k :: 0 <= k < r.value ==> !HasPageId(docs[k], pageId)
    ensures r.None? <==> forall k :: 0 <= k < |docs| ==> !HasPageId(docs[k], pageId)
  {
    if |docs| == 0 then None
    else if HasPageId(docs[0], pageId) then Some(0)
    else
      match FirstWithPageId(docs[1..], pageId)
      case None => None
      case Some(k) => Some(k + 1)
  }

  /** What `find_document` returns for a store whose listing is `docs`. */
  function FoundDocument(docs: seq<Document>, pageId: string): (r: Option<Document>)
    ensures r.Some? ==> r.value in docs && HasPageId(r.value, pageId)
    ensures r.None? <==> forall k :: 0 <= k < |docs| ==> !HasPageId(docs[k], pageId)
  {
    match FirstWithPageId(docs, pageId)
    case None => None
    case Some(k) => Some(docs[k])
  }

  /** The document found is the one at the first matching position. */
  lemma FoundIsFirst(docs: seq<Document>, pageId: string, i: nat)
    requires i < |docs| && HasPageId(docs[i], pageId)
    requires forall k :: 0 <= k < i ==> !HasPageId(docs[k], pageId)
    ensures FoundDocument(docs, pageId) == Some(docs[i])
  {
    var r := FirstWithPageId(docs, pageId);
    assert r.Some?;
    assert !(r.value < i);
    assert !(i < r.value);
  }

  /** `find_document`: scans the listing, and each document's metadata, in order and
      returns the first document with a `page_id` entry whose value is `pageId`. */
  method FindDocument(docs: seq<Document>, pageId: string) returns (found: Option<Document>)
    ensures found == FoundDocument(docs, pageId)
  {
    for i := 0 to |docs|
      invariant forall k :: 0 <= k < i ==> !HasPageId(docs[k], pageId)
    {
      var metadata := docs[i].metadata;
      for j := 0 to |metadata|
        invariant forall m :: 0 <= m < j ==> !IsPageIdEntry(metadata[m], pageId)
      {
        if metadata[j].key == "page_id" && metadata[j].value == Some(pageId) {
          assert IsPageIdEntry(docs[i].metadata[j], pageId);
          FoundIsFirst(docs, pageId, i);
          return Some(docs[i]);
        }
      }
    }
    return None;
  }

  // ---------------------------------------------------------------------------
  // get_document_last_edited
  // ---------------------------------------------------------------------------

  /** The value of the first `last_edited` entry, "" when it has none or there is none. */
  function LastEdited(metadata: seq<Meta>): (r: string)
    ensures (forall j :: 0 <= j < |metadata| ==> metadata[j].key != "last_edited") ==> r == ""
  {
    if |metadata| == 0 then ""
    else if metadata[0].key == "last_edited" then metadata[0].value.GetOr("")
    else LastEdited(metadata[1..])
  }

  /** The first `last_edited` entry decides; every later one is ignored. */
  lemma {:induction false} LastEditedFirst(metadata: seq<Meta>, j: nat)
    requires j < |metadata| && metadata[j].key == "last_edited"
    requires forall k :: 0 <= k < j ==> metadata[k].key != "last_edited"
    ensures LastEdited(metadata) == metadata[j].value.GetOr("")
  {
    if j > 0 {
      assert metadata[1..][j - 1] == metadata[j];
      LastEditedFirst(metadata[1..], j - 1);
    }
  }

  /** What `get_document_last_edited` returns; a missing document gives "". */
  function DocumentLastEdited(doc: Option<Document>): string {
    if doc.None? then "" else LastEdited(doc.value.metadata)
  }

  /** `get_document_last_edited`. */
  method GetDocumentLastEdited(doc: Option<Document>) returns (r: string)
    ensures r == DocumentLastEdited(doc)
    ensures doc.None? ==> r == ""
  {
    if doc.Some? {
      var metadata := doc.value.metadata;
      for j := 0 to |metadata|
        invariant forall k :: 0 <= k < j ==> metadata[k].key != "last_edited"
      {
        if metadata[j].key == "last_edited" {
          LastEditedFirst(metadata, j);
          return metadata[j].value.GetOr("");
        }
      }
    }
    return "";
  }

  // ---------------------------------------------------------------------------
  // list_documents_map
  // ---------------------------------------------------------------------------

  /** An entry that files its document in the map: key `page_id`, non-empty value. */
  predicate IsMapEntry(m: Meta) {
    m.key == "page_id" && m.value.Some? && m.value.value != ""
  }

  /** The key a document is filed under: the value of its first map entry. */
  function MapKey(metadata: seq<Meta>): (r: Option<string>)
    ensures r.Some? ==> r.value != ""
    ensures r.None? <==> forall j :: 0 <= j < |metadata| ==> !IsMapEntry(metadata[j])
  {
    if |metadata| == 0 then None
    else if IsMapEntry(metadata[0]) then metadata[0].value
    else MapKey(metadata[1..])
  }

  /** The first map entry decides the key. */
  lemma {:induction false} MapKeyFirst(metadata: seq<Meta>, j: nat)
    requires j < |metadata| && IsMapEntry(metadata[j])
    requires forall k :: 0 <= k < j ==> !IsMapEntry(metadata[k])
    ensures MapKey(metadata) == metadata[j].value
  {
    if j > 0 {
      assert metadata[1..][j - 1] == metadata[j];
      MapKeyFirst(metadata[1..], j - 1);
    }
  }

  /** A document filed under `k` is one `find_document` can find under `k`. */
  lemma {:induction false} MapKeyIsPageId(metadata: seq<Meta>, d: Document)
    requires d.metadata == metadata && MapKey(metadata).Some?
    ensures HasPageId(d, MapKey(metadata).value)
  {
    if IsMapEntry(metadata[0]) {
      assert IsPageIdEntry(d.metadata[0], MapKey(metadata).value);
    } else {
      MapKeyIsPageId(metadata[1..], d.(metadata := metadata[1..]));
      var j :| 0 <= j < |metadata[1..]| && IsPageIdEntry(metadata[1..][j], MapKey(metadata).value);
      assert IsPageIdEntry(d.metadata[j + 1], MapKey(metadata).value);
    }
  }

  /** The dictionary `list_documents_map` builds: documents in listing order, a later
      document overwriting an earlier one filed under the same key. */
  function DocumentsMap(docs: seq<Document>): (r: map<string, Document>)
    ensures "" !in r
  {
    if |docs| == 0 then map[]
    else
      var before := DocumentsMap(docs[..|docs| - 1]);
      var d := docs[|docs| - 1];
      match MapKey(d.metadata)
      case Some(k) => before[k := d]
      case None => before
  }

  /** The keys are exactly the keys the documents are filed under. */
  lemma {:induction false} DocumentsMapKeys(docs: seq<Document>, key: string)
    ensures key in DocumentsMap(docs) <==> exists i :: 0 <= i < |docs| && MapKey(docs[i].metadata) == Some(key)
  {
    if |docs| > 0 {
      var n := |docs|;
      DocumentsMapKeys(docs[..n - 1], key);
      if key in DocumentsMap(docs[..n - 1]) {
        var i :| 0 <= i < n - 1 && MapKey(docs[..n - 1][i].metadata) == Some(key);
        assert docs[..n - 1][i] == docs[i];
      }
      if exists i :: 0 <= i < n && MapKey(docs[i].metadata) == Some(key) {
        var i :| 0 <= i < n && MapKey(docs[i].metadata) == Some(key);
        if i < n - 1 {
          assert docs[..n - 1][i] == docs[i];
        }
      }
    }
  }

  /** The value under a key is the LAST document filed under it. */
  lemma {:induction false} LaterDocumentWins(docs: seq<Document>, key: string, i: nat)
    requires i < |docs| && MapKey(docs[i].metadata) == Some(key)
    requires forall j :: i < j < |docs| ==> MapKey(docs[j].metadata) != Some(key)
    ensures key in DocumentsMap(docs) && DocumentsMap(docs)[key] == docs[i]
  {
    var n := |docs|;
    if i < n - 1 {
      var prefix := docs[..n - 1];
      assert prefix[i] == docs[i];
      forall j | i < j < |prefix| ensures MapKey(prefix[j].metadata) != Some(key) {
        assert prefix[j] == docs[j];
      }
      LaterDocumentWins(prefix, key, i);
    }
  }

  /** `list_documents_map`: the inner loop stops at the first map entry of each document. */
  method ListDocumentsMap(docs: seq<Document>) returns (result: map<string, Document>)
    ensures result == DocumentsMap(docs)
  {
    result := map[];
    for i := 0 to |docs|
      invariant result == DocumentsMap(docs[..i])
    {
      assert docs[..i + 1][..i] == docs[..i];
      var metadata := docs[i].metadata;
      var j := 0;
      while j < |metadata|
        invariant 0 <= j <= |metadata|
        invariant forall k :: 0 <= k < j ==> !IsMapEntry(metadata[k])
        invariant result == DocumentsMap(docs[..i])
      {
        if metadata[j].key == "page_id" && metadata[j].value.Some? && metadata[j].value.value != "" {
          MapKeyFirst(metadata, j);
          result := result[metadata[j].value.value := docs[i]];
          break;
        }
        j := j + 1;
      }
    }
    assert docs[..|docs|] == docs;
  }

  /** `find_document` keeps the first of two documents filed under one page id, while
      `list_documents_map` keeps the second. */
  lemma FindAndMapDisagree(first: Document, second: Document, pageId: string)
    requires MapKey(first.metadata) == Some(pageId) && MapKey(second.metadata) == Some(pageId)
    ensures FoundDocument([first, second], pageId) == Some(first)
    ensures pageId in DocumentsMap([first, second]) && DocumentsMap([first, second])[pageId] == second
  {
    MapKeyIsPageId(first.metadata, first);
    FoundIsFirst([first, second], pageId, 0);
    LaterDocumentWins([first, second], pageId, 1);
  }

  /** With at most one document per page id, the two lookups agree. */
  ghost predicate UniquePageIds(docs: seq<Document>) {
    forall i, j, p :: 0 <= i < |docs| && 0 <= j < |docs| && HasPageId(docs[i], p) && HasPageId(docs[j], p) ==> i == j
  }

  lemma MapAgreesWithFind(docs: seq<Document>, pageId: string)
    requires UniquePageIds(docs)
    requires pageId in DocumentsMap(docs)
    ensures FoundDocument(docs, pageId) == Some(DocumentsMap(docs)[pageId])
  {
    DocumentsMapKeys(docs, pageId);
    var i :| 0 <= i < |docs| && MapKey(docs[i].metadata) == Some(pageId);
    MapKeyIsPageId(docs[i].metadata, docs[i]);
    forall j | i < j < |docs| ensures MapKey(docs[j].metadata) != Some(pageId) {
      if MapKey(docs[j].metadata) == Some(pageId) {
        MapKeyIsPageId(docs[j].metadata, docs[j]);
      }
    }
    LaterDocumentWins(docs, pageId, i);
    FoundIsFirst(docs, pageId, i);
  }

  // ---------------------------------------------------------------------------
  // Stores
  // ---------------------------------------------------------------------------

  /** The position of the first store with the given display name. */
  function FirstNamed(stores: seq<FileStore>, displayName: string): (r: Option<nat>)
    ensures r.Some? ==> r.value < |stores| && stores[r.value].displayName == displayName
    ensures r.Some? ==> forall k :: 0 <= k < r.value ==> stores[k].displayName != displayName
    ensures r.None? <==> forall k :: 0 <= k < |stores| ==> stores[k].displayName != displayName
  {
    if |stores| == 0 then None
    else if stores[0].displayName == displayName then Some(0)
    else
      match FirstNamed(stores[1..], displayName)
      case None => None
      case Some(k) => Some(k + 1)
  }

  /** The number of stores with the given display name. */
  function CountNamed(stores: seq<FileStore>, displayName: string): (n: nat)
    ensures n <= |stores|
  {
    if |stores| == 0 then 0
    else (if stores[0].displayName == displayName then 1 else 0) + CountNamed(stores[1..], displayName)
  }

  lemma {:induction false} CountNamedAppend(a: seq<FileStore>, b: seq<FileStore>, displayName: string)
    ensures CountNamed(a + b, displayName) == CountNamed(a, displayName) + CountNamed(b, displayName)
  {
    if |a| > 0 {
      assert (a + b)[0] == a[0];
      assert (a + b)[1..] == a[1..] + b;
      CountNamedAppend(a[1..], b, displayName);
    } else {
      assert a + b == b;
    }
  }

  /** The list without the store at position `i`. */
  function RemoveAt(stores: seq<FileStore>, i: nat): (r: seq<FileStore>)
    requires i < |stores|
    ensures |r| == |stores| - 1
  {
    stores[..i] + stores[i + 1..]
  }

  /** Deleting the first match leaves every other store of that display name. */
  lemma DeleteOnlyFirst(stores: seq<FileStore>, displayName: string)
    requires FirstNamed(stores, displayName).Some?
    ensures CountNamed(RemoveAt(stores, FirstNamed(stores, displayName).value), displayName)
            == CountNamed(stores, displayName) - 1
  {
    var i := FirstNamed(stores, displayName).value;
    var before, after := stores[..i], stores[i + 1..];
    var rest := [stores[i]] + after;
    assert stores == before + rest;
    assert CountNamed(rest, displayName) == 1 + CountNamed(after, displayName) by {
      assert rest[0] == stores[i] && rest[1..] == after;
    }
    CountNamedAppend(before, rest, displayName);
    CountNamedAppend(before, after, displayName);
  }

  /** The position of the store with the given resource name. */
  function StoreWithId(stores: seq<FileStore>, id: nat): (r: Option<nat>)
    ensures r.Some? ==> r.value < |stores| && stores[r.value].id == id
    ensures r.Some? ==> forall k :: 0 <= k < r.value ==> stores[k].id != id
    ensures r.None? <==> forall k :: 0 <= k < |stores| ==> stores[k].id != id
  {
    if |stores| == 0 then None
    else if stores[0].id == id then Some(0)
    else
      match StoreWithId(stores[1..], id)
      case None => None
      case Some(k) => Some(k + 1)
  }

  /** Two store lists with the same resource names in the same order locate a name alike. */
  lemma SameIdsSamePosition(a: seq<FileStore>, b: seq<FileStore>, id: nat)
    requires |a| == |b| && forall k :: 0 <= k < |a| ==> a[k].id == b[k].id
    ensures StoreWithId(a, id) == StoreWithId(b, id)
  {
    var ra, rb := StoreWithId(a, id), StoreWithId(b, id);
    if ra.Some? && rb.Some? {
      assert !(ra.value < rb.value);
      assert !(rb.value < ra.value);
    }
  }

  /** What listing the documents of a store returns; an unknown store lists nothing. */
  function DocumentsOf(stores: seq<FileStore>, id: nat): seq<Document> {
    match StoreWithId(stores, id)
    case None => []
    case Some(i) => stores[i].documents
  }

  /** The listing without the documents of resource name `id`. */
  function RemoveDocument(docs: seq<Document>, id: nat): (r: seq<Document>)
    ensures |r| <= |docs|
    ensures forall d :: d in r <==> d in docs && d.id != id
  {
    if |docs| == 0 then []
    else if docs[0].id == id then RemoveDocument(docs[1..], id)
    else [docs[0]] + RemoveDocument(docs[1..], id)
  }

  /** The stores after the document of resource name `docId` has been deleted. */
  function WithoutDocument(stores: seq<FileStore>, docId: nat): (r: seq<FileStore>)
    ensures |r| == |stores|
    ensures forall k :: 0 <= k < |r| ==> r[k].id == stores[k].id && r[k].displayName == stores[k].displayName
  {
    seq(|stores|, k requires 0 <= k < |stores| => stores[k].(documents := RemoveDocument(stores[k].documents, docId)))
  }

  /** The stores after `doc` has been uploaded to the store of resource name `storeId`. */
  function WithUpload(stores: seq<FileStore>, storeId: nat, doc: Document): (r: seq<FileStore>)
    ensures |r| == |stores|
    ensures forall k :: 0 <= k < |r| ==> r[k].id == stores[k].id && r[k].displayName == stores[k].displayName
  {
    match StoreWithId(stores, storeId)
    case None => stores
    case Some(i) => stores[i := stores[i].(documents := stores[i].documents + [doc])]
  }

  /** Deleting a document removes it from the listing of every store. */
  lemma DocumentsAfterDelete(stores: seq<FileStore>, storeId: nat, docId: nat)
    ensures DocumentsOf(WithoutDocument(stores, docId), storeId) == RemoveDocument(DocumentsOf(stores, storeId), docId)
  {
    SameIdsSamePosition(WithoutDocument(stores, docId), stores, storeId);
  }

  /** An upload appends the document to the end of its store's listing. */
  lemma DocumentsAfterUpload(stores: seq<FileStore>, storeId: nat, doc: Document)
    requires StoreWithId(stores, storeId).Some?
    ensures DocumentsOf(WithUpload(stores, storeId, doc), storeId) == DocumentsOf(stores, storeId) + [doc]
  {
    SameIdsSamePosition(WithUpload(stores, storeId, doc), stores, storeId);
  }

  /** An upload leaves every other store's listing as it was. */
  lemma OtherStoresUnchanged(stores: seq<FileStore>, storeId: nat, doc: Document, other: nat)
    requires other != storeId
    ensures DocumentsOf(WithUpload(stores, storeId, doc), other) == DocumentsOf(stores, other)
  {
    SameIdsSamePosition(WithUpload(stores, storeId, doc), stores, other);
  }

  /** The store `get_or_create_store` returns and the service state after it. */
  datatype Opened = Opened(store: FileStore, stores: seq<FileStore>, nextId: nat)

  /** `get_or_create_store`: the first store with the display name, or else a new empty
      store under the next resource name, added at the end. */
  function OpenStore(stores: seq<FileStore>, nextId: nat, displayName: string): (r: Opened)
    ensures r.store.displayName == displayName
    ensures FirstNamed(r.stores, displayName).Some? && r.stores[FirstNamed(r.stores, displayName).value] == r.store
  {
    match FirstNamed(stores, displayName)
    case Some(i) => Opened(stores[i], stores, nextId)
    case None =>
      var created := FileStore(nextId, displayName, []);
      FirstNamedAppended(stores, created);
      Opened(created, stores + [created], nextId + 1)
  }

  lemma FirstNamedAppended(stores: seq<FileStore>, store: FileStore)
    requires FirstNamed(stores, store.displayName).None?
    ensures FirstNamed(stores + [store], store.displayName) == Some(|stores|)
  {
    var all := stores + [store];
    assert all[|stores|] == store;
    assert forall k :: 0 <= k < |stores| ==> all[k] == stores[k];
  }

  /** Asking again for the same display name finds the same store and changes nothing. */
  lemma OpenStoreIdempotent(stores: seq<FileStore>, nextId: nat, displayName: string)
    ensures var o := OpenStore(stores, nextId, displayName);
            OpenStore(o.stores, o.nextId, displayName) == o
  {
  }

  /** An existing store is reused; a store is created only when none has the name, and
      it is empty. */
  lemma OpenStoreCreates(stores: seq<FileStore>, nextId: nat, displayName: string)
    ensures var o := OpenStore(stores, nextId, displayName);
            (o.stores == stores <==> FirstNamed(stores, displayName).Some?)
            && (FirstNamed(stores, displayName).None? ==> o.store.id == nextId && o.store.documents == [] && o.nextId == nextId + 1)
            && (FirstNamed(stores, displayName).Some? ==> o.nextId == nextId)
  {
    var o := OpenStore(stores, nextId, displayName);
    if FirstNamed(stores, displayName).None? {
      assert |o.stores| == |stores| + 1;
    }
  }

  /** Two service states with the same stores, under the same names and in the same
      order; only their documents may differ. */
  predicate SameShelves(a: seq<FileStore>, b: seq<FileStore>) {
    |a| == |b| && forall k :: 0 <= k < |a| ==> a[k].id == b[k].id && a[k].displayName == b[k].displayName
  }

  lemma SameShelvesTrans(a: seq<FileStore>, b: seq<FileStore>, c: seq<FileStore>)
    requires SameShelves(a, b) && SameShelves(b, c)
    ensures SameShelves(a, c)
  {
  }

  /** Which store a display name finds depends only on the stores' names. */
  lemma {:induction false} FirstNamedShelves(a: seq<FileStore>, b: seq<FileStore>, displayName: string)
    requires SameShelves(a, b)
    ensures FirstNamed(a, displayName) == FirstNamed(b, displayName)
  {
    if |a| > 0 {
      assert SameShelves(a[1..], b[1..]);
      FirstNamedShelves(a[1..], b[1..], displayName);
    }
  }

  /** Once a store has been opened, uploads and deletes of documents do not change which
      store the same display name opens, and no second store is created. */
  lemma ReopenSameStore(stores: seq<FileStore>, nextId: nat, displayName: string, later: seq<FileStore>, laterId: nat)
    requires SameShelves(OpenStore(stores, nextId, displayName).stores, later)
    ensures var again := OpenStore(later, laterId, displayName);
            again.stores == later && again.nextId == laterId
            && again.store.id == OpenStore(stores, nextId, displayName).store.id
  {
    var g := OpenStore(stores, nextId, displayName);
    FirstNamedShelves(g.stores, later, displayName);
  }

  // ---------------------------------------------------------------------------
  // Resource names
  // ---------------------------------------------------------------------------

  /** Every store and every document has a resource name below `bound`: a name the
      service hands out from `bound` on is not in use. */
  predicate IdsBelow(stores: seq<FileStore>, bound: nat) {
    forall s :: s in stores ==> s.id < bound && forall d :: d in s.documents ==> d.id < bound
  }

  /** An upload of a document named below the bound keeps every name below it. */
  lemma IdsBelowUpload(stores: seq<FileStore>, storeId: nat, doc: Document, bound: nat)
    requires IdsBelow(stores, bound) && doc.id < bound
    ensures IdsBelow(WithUpload(stores, storeId, doc), bound)
  {
    var r := WithUpload(stores, storeId, doc);
    forall s | s in r
      ensures s.id < bound && forall d :: d in s.documents ==> d.id < bound
    {
      var k :| 0 <= k < |r| && r[k] == s;
      if StoreWithId(stores, storeId) == Some(k) {
        assert s.documents == stores[k].documents + [doc];
        assert stores[k] in stores;
      } else {
        assert s == stores[k];
      }
    }
  }

  /** Deleting a document keeps every name below the bound. */
  lemma IdsBelowWithout(stores: seq<FileStore>, docId: nat, bound: nat)
    requires IdsBelow(stores, bound)
    ensures IdsBelow(WithoutDocument(stores, docId), bound)
  {
    var r := WithoutDocument(stores, docId);
    forall s | s in r
      ensures s.id < bound && forall d :: d in s.documents ==> d.id < bound
    {
      var k :| 0 <= k < |r| && r[k] == s;
      assert stores[k] in stores;
    }
  }

  /** Deleting a store keeps every name below the bound. */
  lemma IdsBelowRemoveAt(stores: seq<FileStore>, i: nat, bound: nat)
    requires i < |stores| && IdsBelow(stores, bound)
    ensures IdsBelow(RemoveAt(stores, i), bound)
  {
    forall s | s in RemoveAt(stores, i) ensures s in stores {
      assert s in stores[..i] || s in stores[i + 1..];
    }
  }

  /** Adding an empty store named below the bound keeps every name below it. */
  lemma IdsBelowAppend(stores: seq<FileStore>, store: FileStore, bound: nat)
    requires IdsBelow(stores, bound) && store.id < bound && store.documents == []
    ensures IdsBelow(stores + [store], bound)
  {
  }

  /** Finding or creating a store keeps every name below the next one. */
  lemma IdsBelowOpen(stores: seq<FileStore>, nextId: nat, displayName: string)
    requires IdsBelow(stores, nextId)
    ensures var o := OpenStore(stores, nextId, displayName);
            IdsBelow(o.stores, o.nextId) && o.nextId >= nextId
  {
    if FirstNamed(stores, displayName).None? {
      IdsBelowRaise(stores, nextId, nextId + 1);
      IdsBelowAppend(stores, FileStore(nextId, displayName, []), nextId + 1);
    }
  }

  /** A larger bound is a bound as well. */
  lemma IdsBelowRaise(stores: seq<FileStore>, bound: nat, larger: nat)
    requires IdsBelow(stores, bound) && bound <= larger
    ensures IdsBelow(stores, larger)
  {
  }

  /** The FileSearch service: its stores in listing order, and the next resource name
      it will hand out. */
  class FileSearchService {
    var stores: seq<FileStore>
    var nextId: nat

    /** No resource name in use is `nextId` or above. */
    ghost predicate Valid()
      reads this
    {
      IdsBelow(stores, nextId)
    }

    constructor (initial: seq<FileStore>, firstFree: nat)
      requires IdsBelow(initial, firstFree)
      ensures stores == initial && nextId == firstFree
      ensures Valid()
    {
      stores := initial;
      nextId := firstFree;
    }

    /** `get_or_create_store`: the first store with the display name, or a new empty one. */
    method GetOrCreateStore(displayName: string) returns (store: FileStore, created: bool)
      requires Valid()
      modifies this
      ensures Valid()
      ensures created <==> FirstNamed(old(stores), displayName).None?
      ensures !created ==> store == old(stores)[FirstNamed(old(stores), displayName).value]
      ensures !created ==> stores == old(stores) && nextId == old(nextId)
      ensures created ==> store == FileStore(old(nextId), displayName, [])
      ensures created ==> stores == old(stores) + [store] && nextId == old(nextId) + 1
      ensures store.displayName == displayName
      ensures created ==> forall s :: s in old(stores) ==> s.id != store.id
      ensures Opened(store, stores, nextId) == OpenStore(old(stores), old(nextId), displayName)
    {
      for i := 0 to |stores|
        invariant forall k :: 0 <= k < i ==> stores[k].displayName != displayName
      {
        if stores[i].displayName == displayName {
          assert FirstNamed(stores, displayName) == Some(i) by {
            var f := FirstNamed(stores, displayName);
            assert f.Some? && !(f.value < i) && !(i < f.value);
          }
          return stores[i], false;
        }
      }
      store := FileStore(nextId, displayName, []);
      IdsBelowAppend(stores, store, nextId + 1);
      stores := stores + [store];
      nextId := nextId + 1;
      created := true;
    }

    /** `delete_store`: deletes the first store with the display name, if there is one. */
    method DeleteStore(displayName: string) returns (deleted: bool)
      requires Valid()
      modifies this
      ensures Valid()
      ensures deleted <==> FirstNamed(old(stores), displayName).Some?
      ensures deleted ==> stores == RemoveAt(old(stores), FirstNamed(old(stores), displayName).value)
      ensures !deleted ==> stores == old(stores)
      ensures nextId == old(nextId)
    {
      var found: Option<nat> := None;
      for i := 0 to |stores|
        invariant forall k :: 0 <= k < i ==> stores[k].displayName != displayName
      {
        if stores[i].displayName == displayName {
          found := Some(i);
          break;
        }
      }
      if found.None? {
        return false;
      }
      IdsBelowRemoveAt(stores, found.value, nextId);
      stores := RemoveAt(stores, found.value);
      deleted := true;
    }

    /** The documents listing of a store. */
    function Documents(storeId: nat): (docs: seq<Document>)
      reads this
    {
      DocumentsOf(stores, storeId)
    }

    /** `documents.delete`: removes the document with resource name `docId`. */
    method DeleteDocument(docId: nat)
      requires Valid()
      modifies this
      ensures Valid()
      ensures stores == WithoutDocument(old(stores), docId)
      ensures nextId == old(nextId)
    {
      IdsBelowWithout(stores, docId, nextId);
      stores := WithoutDocument(stores, docId);
    }

    /** `upload_to_file_search_store`, completed: a new document with a fresh resource
        name, appended to the store's listing. */
    method Upload(storeId: nat, displayName: string, metadata: seq<Meta>, text: string) returns (doc: Document)
      requires Valid()
      modifies this
      ensures Valid()
      ensures doc == Document(old(nextId), displayName, metadata, text)
      ensures stores == WithUpload(old(stores), storeId, doc)
      ensures nextId == old(nextId) + 1
      ensures forall s :: s in old(stores) ==> s.id != doc.id && forall d :: d in s.documents ==> d.id != doc.id
    {
      doc := Document(nextId, displayName, metadata, text);
      IdsBelowRaise(stores, nextId, nextId + 1);
      IdsBelowUpload(stores, storeId, doc, nextId + 1);
      stores := WithUpload(stores, storeId, doc);
      nextId := nextId + 1;
    }
  }
}
