/** Identifier parsing, rich-text flattening and the page-property mapping of
    notion_rag/notion_helpers.py. */
module NotionHelpers {
  import opened Wrappers
  import opened Strings

  // ---------------------------------------------------------------------------
  // Rich text
  // ---------------------------------------------------------------------------

  /** One element of a Notion `rich_text` array; only its `plain_text` field matters. */
  datatype RichTextItem = RichTextItem(plainText: Option<string>)

  type RichText = seq<RichTextItem>

  /** `extract_rich_text`: the elements' `plain_text` fields concatenated in order,
      a missing field counting as "". */
  function ExtractRichText(items: RichText): string
  {
    if |items| == 0 then "" else items[0].plainText.GetOr("") + ExtractRichText(items[1..])
  }

  /** The plain texts of the elements, one per element. */
  function PlainTexts(items: RichText): (r: seq<string>)
    ensures |r| == |items|
    ensures forall i :: 0 <= i < |items| ==> r[i] == items[i].plainText.GetOr("")
  {
    seq(|items|, i requires 0 <= i < |items| => items[i].plainText.GetOr(""))
  }

  /** Flattening is the in-order concatenation of the elements' plain texts. */
  lemma {:induction false} ExtractRichTextIsConcat(items: RichText)
    ensures ExtractRichText(items) == Concat(PlainTexts(items))
  {
    if |items| > 0 {
      ExtractRichTextIsConcat(items[1..]);
      assert PlainTexts(items)[1..] == PlainTexts(items[1..]);
    }
  }

  /** Flattening two runs one after the other is flattening their concatenation. */
  lemma {:induction false} ExtractRichTextAppend(a: RichText, b: RichText)
    ensures ExtractRichText(a + b) == ExtractRichText(a) + ExtractRichText(b)
  {
    if |a| == 0 {
      assert a + b == b;
    } else {
      assert (a + b)[0] == a[0];
      assert (a + b)[1..] == a[1..] + b;
      ExtractRichTextAppend(a[1..], b);
    }
  }

  // ---------------------------------------------------------------------------
  // Page and database identifiers
  // ---------------------------------------------------------------------------

  /** One character of the regular-expression class `[a-f0-9]`. */
  predicate IsHexDigit(c: char) {
    ('0' <= c <= '9') || ('a' <= c <= 'f')
  }

  predicate AllHex(s: string) {
    forall i :: 0 <= i < |s| ==> IsHexDigit(s[i])
  }

  /** Exactly 32 lower-case hexadecimal characters: the shape of a Notion id. */
  predicate IsHexId(s: string) {
    |s| == 32 && AllHex(s)
  }

  /** `re.search(r"([a-f0-9]{32})$", t)`. Python's `$` also matches just before a
      final newline, so the 32 characters may sit in front of a trailing "\n". */
  function TrailingHexId(t: string): (r: Option<string>)
    ensures r.Some? ==> IsHexId(r.value)
    ensures r.Some? ==> EndsWith(t, r.value) || EndsWith(t, r.value + "\n")
    ensures |t| >= 32 && AllHex(t[|t| - 32..]) ==> r == Some(t[|t| - 32..])
    ensures r.None? <==> !(|t| >= 32 && AllHex(t[|t| - 32..]))
                         && !(|t| >= 33 && t[|t| - 1] == '\n' && AllHex(t[|t| - 33..|t| - 1]))
  {
    if |t| >= 32 && AllHex(t[|t| - 32..]) then Some(t[|t| - 32..])
    else if |t| >= 33 && t[|t| - 1] == '\n' && AllHex(t[|t| - 33..|t| - 1]) then
      assert t[|t| - 33..] == t[|t| - 33..|t| - 1] + "\n";
      Some(t[|t| - 33..|t| - 1])
    else None
  }

  /** The dashed UUID pattern `8-4-4-4-12` of hexadecimal groups starts at `p`. */
  predicate IsUuidAt(t: string, p: nat) {
    && p + 36 <= |t|
    && AllHex(t[p..p + 8]) && t[p + 8] == '-'
    && AllHex(t[p + 9..p + 13]) && t[p + 13] == '-'
    && AllHex(t[p + 14..p + 18]) && t[p + 18] == '-'
    && AllHex(t[p + 19..p + 23]) && t[p + 23] == '-'
    && AllHex(t[p + 24..p + 36])
  }

  /** `re.search` for the dashed UUID pattern: the leftmost match at or after `p`. */
  function FindUuid(t: string, p: nat): (r: Option<nat>)
    ensures r.Some? ==> p <= r.value && IsUuidAt(t, r.value)
    ensures r.Some? ==> forall q :: p <= q < r.value ==> !IsUuidAt(t, q)
    ensures r.None? ==> forall q :: p <= q ==> !IsUuidAt(t, q)
    decreases |t| - p
  {
    if p + 36 > |t| then None
    else if IsUuidAt(t, p) then Some(p)
    else FindUuid(t, p + 1)
  }

  /** Hexadecimal text holds no character outside the class. */
  lemma HexLacks(s: string, c: char)
    requires AllHex(s) && !IsHexDigit(c)
    ensures c !in s
  {
    forall i | 0 <= i < |s|
      ensures s[i] != c
    {
      assert IsHexDigit(s[i]);
    }
  }

  /** Text holding a character outside the class is not hexadecimal. */
  lemma NotHexWith(s: string, c: char)
    requires c in s && !IsHexDigit(c)
    ensures !AllHex(s)
  {
    var i :| 0 <= i < |s| && s[i] == c;
    assert !IsHexDigit(s[i]);
  }

  lemma AllHexAppend(a: string, b: string)
    requires AllHex(a) && AllHex(b)
    ensures AllHex(a + b)
  {
    assert forall i :: 0 <= i < |a + b| ==> (a + b)[i] == if i < |a| then a[i] else b[i - |a|];
  }

  /** Removing dashes from a slice that has a dash at `j` removes them on both sides. */
  lemma UndashSplit(t: string, i: nat, j: nat, k: nat)
    requires i <= j < k <= |t| && t[j] == '-'
    ensures RemoveChar(t[i..k], '-') == RemoveChar(t[i..j], '-') + RemoveChar(t[j + 1..k], '-')
  {
    assert t[i..k] == t[i..j] + ("-" + t[j + 1..k]);
    RemoveCharAppend(t[i..j], "-" + t[j + 1..k], '-');
    RemoveCharAppend("-", t[j + 1..k], '-');
  }

  /** A hexadecimal slice is unchanged by removing dashes. */
  lemma UndashHex(s: string)
    requires AllHex(s)
    ensures RemoveChar(s, '-') == s
  {
    HexLacks(s, '-');
    RemoveCharAbsent(s, '-');
  }

  /** A dashed UUID without its dashes is a 32-character hexadecimal id. */
  lemma UuidUndashed(t: string, p: nat)
    requires IsUuidAt(t, p)
    ensures IsHexId(RemoveChar(t[p..p + 36], '-'))
  {
    UndashSplit(t, p, p + 23, p + 36);
    UndashSplit(t, p, p + 18, p + 23);
    UndashSplit(t, p, p + 13, p + 18);
    UndashSplit(t, p, p + 8, p + 13);
    var g1, g2, g3, g4, g5 := t[p..p + 8], t[p + 9..p + 13], t[p + 14..p + 18], t[p + 19..p + 23], t[p + 24..p + 36];
    UndashHex(g1); UndashHex(g2); UndashHex(g3); UndashHex(g4); UndashHex(g5);
    assert RemoveChar(t[p..p + 36], '-') == g1 + g2 + g3 + g4 + g5;
    AllHexAppend(g1, g2); AllHexAppend(g1 + g2, g3); AllHexAppend(g1 + g2 + g3, g4);
    AllHexAppend(g1 + g2 + g3 + g4, g5);
  }

  /** The branch for inputs containing "notion.so": the query string is cut at the
      first "?", then the trailing 32 hexadecimal characters of the dash-less text are
      taken, with the leftmost dashed UUID as the fallback. */
  function UrlId(s: string): (r: Option<string>)
    ensures r.Some? ==> IsHexId(r.value)
    ensures var u := RemoveChar(Before(s, '?'), '-');
            |u| >= 32 && AllHex(u[|u| - 32..]) ==> r == Some(u[|u| - 32..])
    ensures TrailingHexId(RemoveChar(Before(s, '?'), '-')).None? ==>
              (r.Some? <==> FindUuid(Before(s, '?'), 0).Some?)
  {
    var clean := Before(s, '?');
    match TrailingHexId(RemoveChar(clean, '-'))
    case Some(id) => Some(id)
    case None =>
      match FindUuid(clean, 0)
      case Some(p) => UuidUndashed(clean, p); Some(RemoveChar(clean[p..p + 36], '-'))
      case None => None
  }

  /** The identifier rule shared by `extract_page_id` and `extract_db_id`, with the raw
      form matched in full (see the as-written variant below for the source's regex). */
  function ParseId(s: string): (r: Option<string>)
    ensures r.Some? ==> IsHexId(r.value)
    ensures Contains(s, "notion.so") && UrlId(s).Some? ==> r == UrlId(s)
    ensures !(Contains(s, "notion.so") && UrlId(s).Some?) ==>
              (r.Some? <==> IsHexId(RemoveChar(s, '-'))) && (r.Some? ==> r.value == RemoveChar(s, '-'))
  {
    var fromUrl := if Contains(s, "notion.so") then UrlId(s) else None;
    if fromUrl.Some? then fromUrl
    else
      var clean := RemoveChar(s, '-');
      if IsHexId(clean) then Some(clean) else None
  }

  /** The raw-form test as the source writes it: `re.match(r"^[a-f0-9]{32}$", clean)`,
      whose `$` also accepts one final newline, which is then returned with the id. */
  function ParseIdAsWritten(s: string): Option<string>
  {
    var fromUrl := if Contains(s, "notion.so") then UrlId(s) else None;
    if fromUrl.Some? then fromUrl
    else
      var clean := RemoveChar(s, '-');
      if IsHexId(clean) || (|clean| == 33 && AllHex(clean[..32]) && clean[32] == '\n')
      then Some(clean) else None
  }

  /** `extract_page_id`: a 32-character hexadecimal id, or a ValueError. */
  function ExtractPageId(urlOrId: string): (r: Result<string>)
    ensures r.Ok? ==> IsHexId(r.value)
    ensures r.Err? ==> r.error == "Invalid Notion URL or ID: " + urlOrId
    ensures Contains(urlOrId, "notion.so") && UrlId(urlOrId).Some? ==> r == Ok(UrlId(urlOrId).value)
  {
    match ParseId(urlOrId)
    case Some(id) => Ok(id)
    case None => Err("Invalid Notion URL or ID: " + urlOrId)
  }

  /** `extract_page_id` with the source's raw-form regex. */
  function ExtractPageIdAsWritten(urlOrId: string): Result<string>
  {
    match ParseIdAsWritten(urlOrId)
    case Some(id) => Ok(id)
    case None => Err("Invalid Notion URL or ID: " + urlOrId)
  }

  /** `extract_db_id`: the same rule as `extract_page_id` with its own error message. */
  function ExtractDbId(urlOrId: string): (r: Result<string>)
    ensures r.Ok? ==> IsHexId(r.value)
    ensures r.Err? ==> r.error == "Invalid Notion database URL or ID: " + urlOrId
    ensures ExtractPageId(urlOrId).Ok? ==> r == ExtractPageId(urlOrId)
    ensures ExtractPageId(urlOrId).Err? ==> r.Err?
  {
    match ParseId(urlOrId)
    case Some(id) => Ok(id)
    case None => Err("Invalid Notion database URL or ID: " + urlOrId)
  }

  /** Text made only of hexadecimal digits and dashes never contains "notion.so". */
  lemma NoNotionInHexDashes(s: string)
    requires AllHex(RemoveChar(s, '-'))
    ensures !Contains(s, "notion.so")
  {
    HexLacks(RemoveChar(s, '-'), 'n');
    ContainsFirstChar(s, "notion.so");
  }

  /** For an input without "notion.so", success means the input without dashes is a hex
      id, and that dash-less text is the result. */
  lemma RawIdIsUndashed(s: string)
    requires !Contains(s, "notion.so")
    ensures ExtractPageId(s).Ok? <==> IsHexId(RemoveChar(s, '-'))
    ensures ExtractPageId(s).Ok? ==> ExtractPageId(s).value == RemoveChar(s, '-')
  {
  }

  /** A dashed UUID and its dash-less form parse to the same id. */
  lemma DashedAndUndashedAgree(s: string)
    requires IsHexId(RemoveChar(s, '-'))
    ensures ExtractPageId(s) == Ok(RemoveChar(s, '-'))
    ensures ExtractPageId(RemoveChar(s, '-')) == Ok(RemoveChar(s, '-'))
  {
    var clean := RemoveChar(s, '-');
    NoNotionInHexDashes(s);
    UndashHex(clean);
    NoNotionInHexDashes(clean);
  }

  /** Parsing is idempotent: an id parses to itself. */
  lemma ExtractPageIdIdempotent(s: string)
    requires ExtractPageId(s).Ok?
    ensures ExtractPageId(ExtractPageId(s).value) == ExtractPageId(s)
  {
    var id := ExtractPageId(s).value;
    UndashHex(id);
    DashedAndUndashedAgree(id);
  }

  /** In a notion.so URL everything from the first "?" on is ignored. */
  lemma UrlQueryIgnored(s: string, query: string)
    requires Contains(s, "notion.so") && '?' !in s
    ensures SameOutcome(ExtractPageId(s + "?" + query), ExtractPageId(s))
  {
    var u := s + "?" + query;
    assert u == s + ("?" + query);
    ContainsPrefix(s, "?" + query, "notion.so");
    assert IndexOf(u, '?') == |s| by {
      assert u[|s|] == '?';
      assert u[..|s|] == s;
    }
    assert Before(u, '?') == s;
    ContainsFirstChar(s, "notion.so");
    NotHexWith(RemoveChar(s, '-'), 'n');
    NotHexWith(RemoveChar(u, '-'), 'n');
  }

  /** A notion.so URL whose path ends in a 32-character id, as Notion's share links do
      (`https://www.notion.so/Title-<id>`), yields that id. */
  lemma UrlEndingInId(prefix: string, id: string)
    requires Contains(prefix, "notion.so") && '?' !in prefix && IsHexId(id)
    ensures ExtractPageId(prefix + id) == Ok(id)
    ensures ExtractDbId(prefix + id) == Ok(id)
  {
    var s := prefix + id;
    ContainsPrefix(prefix, id, "notion.so");
    HexLacks(id, '?');
    assert '?' !in s;
    assert Before(s, '?') == s;
    UndashHex(id);
    RemoveCharAppend(prefix, id, '-');
    var u := RemoveChar(s, '-');
    assert u == RemoveChar(prefix, '-') + id;
    assert u[|u| - 32..] == id;
  }

  /** A URL ending in a dashed UUID yields that UUID without its dashes. */
  lemma UrlEndingInDashedId(prefix: string, uuid: string)
    requires Contains(prefix, "notion.so") && '?' !in prefix
    requires |uuid| == 36 && IsUuidAt(uuid, 0)
    ensures ExtractPageId(prefix + uuid) == Ok(RemoveChar(uuid, '-'))
  {
    var s := prefix + uuid;
    var id := RemoveChar(uuid, '-');
    assert uuid[0..36] == uuid;
    UuidUndashed(uuid, 0);
    ContainsPrefix(prefix, uuid, "notion.so");
    assert '?' !in uuid by {
      forall i | 0 <= i < |uuid| ensures uuid[i] != '?' {
        if i < 8 { assert uuid[i] == uuid[0..8][i]; }
        else if i == 8 || i == 13 || i == 18 || i == 23 { }
        else if i < 13 { assert uuid[i] == uuid[9..13][i - 9]; }
        else if i < 18 { assert uuid[i] == uuid[14..18][i - 14]; }
        else if i < 23 { assert uuid[i] == uuid[19..23][i - 19]; }
        else { assert uuid[i] == uuid[24..36][i - 24]; }
      }
    }
    assert '?' !in s;
    assert Before(s, '?') == s;
    RemoveCharAppend(prefix, uuid, '-');
    var u := RemoveChar(s, '-');
    assert u == RemoveChar(prefix, '-') + id;
    assert u[|u| - 32..] == id;
  }

  /** When the dash-less URL does not end in an id, the leftmost dashed UUID is taken. */
  lemma UrlUuidFallback(s: string, p: nat)
    requires Contains(s, "notion.so")
    requires TrailingHexId(RemoveChar(Before(s, '?'), '-')).None?
    requires FindUuid(Before(s, '?'), 0) == Some(p)
    ensures ExtractPageId(s) == Ok(RemoveChar(Before(s, '?')[p..p + 36], '-'))
  {
  }

  /** `extract_db_id` accepts exactly what `extract_page_id` accepts and returns the same
      id; only the error message differs. */
  lemma DbIdAgreesWithPageId(s: string)
    ensures SameOutcome(ExtractDbId(s), ExtractPageId(s))
    ensures ExtractDbId(s).Err? ==> ExtractDbId(s).error != ExtractPageId(s).error
  {
    if ExtractDbId(s).Err? {
      var a, b := ExtractDbId(s).error, ExtractPageId(s).error;
      assert a[15] == 'd' && b[15] == 'U';
    }
  }

  /** The source's raw-form regex lets a 32-character id followed by a newline through
      and returns 33 characters, newline included; the corrected rule refuses it. */
  lemma AsWrittenAcceptsTrailingNewline(id: string)
    requires IsHexId(id)
    ensures ExtractPageIdAsWritten(id + "\n") == Ok(id + "\n")
    ensures |ExtractPageIdAsWritten(id + "\n").value| == 33
    ensures ExtractPageId(id + "\n").Err?
  {
    var s := id + "\n";
    HexLacks(id, '-');
    HexLacks(id, 'n');
    assert '-' !in s && 'n' !in s;
    RemoveCharAbsent(s, '-');
    assert s[..32] == id;
    NotHexWith(s, '\n');
    ContainsFirstChar(s, "notion.so");
  }

  // ---------------------------------------------------------------------------
  // Page properties
  // ---------------------------------------------------------------------------

  datatype SelectOption = SelectOption(name: string)

  /** A page property, by its `type`. */
  datatype Property =
    | TitleProp(title: RichText)
    | SelectProp(select: Option<SelectOption>)
    | MultiSelectProp(options: seq<SelectOption>)
    | UrlProp(url: Option<string>)
    | RichTextProp(richText: RichText)
    | OtherProp(typeName: string)

  /** A value of the properties dictionary: a string, a list of names, or None. */
  datatype PropValue = TextValue(text: string) | ListValue(items: seq<string>) | NullValue

  /** What `pages.retrieve` returns: the id, `last_edited_time` (if present), and the
      `properties` dictionary as (name, property) pairs in their iteration order. */
  datatype PageRecord = PageRecord(id: string, lastEditedTime: Option<string>, properties: seq<(string, Property)>)

  function OptionNames(options: seq<SelectOption>): (r: seq<string>)
    ensures |r| == |options|
    ensures forall i :: 0 <= i < |options| ==> r[i] == options[i].name
  {
    seq(|options|, i requires 0 <= i < |options| => options[i].name)
  }

  /** The dictionary entry one property writes, if any: a title always goes under
      "title", a select only when one is chosen, other types under their own name. */
  function Write(name: string, p: Property): Option<(string, PropValue)>
  {
    match p
    case TitleProp(t) => Some(("title", TextValue(ExtractRichText(t))))
    case SelectProp(s) => if s.Some? then Some((name, TextValue(s.value.name))) else None
    case MultiSelectProp(os) => Some((name, ListValue(OptionNames(os))))
    case UrlProp(u) => Some((name, if u.Some? then TextValue(u.value) else NullValue))
    case RichTextProp(rt) => Some((name, TextValue(ExtractRichText(rt))))
    case OtherProp(_) => None
  }

  predicate WritesKey(entry: (string, Property), key: string) {
    Write(entry.0, entry.1).Some? && Write(entry.0, entry.1).value.0 == key
  }

  /** The entries every result starts with. */
  function BaseProperties(page: PageRecord): map<string, PropValue>
  {
    map["page_id" := TextValue(page.id), "last_edited" := TextValue(page.lastEditedTime.GetOr(""))]
  }

  /** The dictionary after applying `props` in order to `acc`. */
  function ApplyProperties(acc: map<string, PropValue>, props: seq<(string, Property)>): map<string, PropValue>
  {
    if |props| == 0 then acc
    else
      var before := ApplyProperties(acc, props[..|props| - 1]);
      var last := props[|props| - 1];
      match Write(last.0, last.1)
      case Some(kv) => before[kv.0 := kv.1]
      case None => before
  }

  /** The result of `get_page_properties` for a retrieved page. */
  function PageProperties(page: PageRecord): map<string, PropValue>
  {
    ApplyProperties(BaseProperties(page), page.properties)
  }

  /** The last property that writes a key decides its value. */
  lemma {:induction false} LastWriterWins(acc: map<string, PropValue>, props: seq<(string, Property)>, key: string, k: nat)
    requires k < |props| && WritesKey(props[k], key)
    requires forall j :: k < j < |props| ==> !WritesKey(props[j], key)
    ensures key in ApplyProperties(acc, props)
    ensures ApplyProperties(acc, props)[key] == Write(props[k].0, props[k].1).value.1
  {
    var n := |props|;
    if k < n - 1 {
      assert props[..n - 1][k] == props[k];
      LastWriterWins(acc, props[..n - 1], key, k);
    }
  }

  /** A key that no property writes keeps the value it started with. */
  lemma {:induction false} UnwrittenKeyKept(acc: map<string, PropValue>, props: seq<(string, Property)>, key: string)
    requires forall j :: 0 <= j < |props| ==> !WritesKey(props[j], key)
    ensures key in ApplyProperties(acc, props) <==> key in acc
    ensures key in acc ==> ApplyProperties(acc, props)[key] == acc[key]
  {
    var n := |props|;
    if n > 0 {
      UnwrittenKeyKept(acc, props[..n - 1], key);
    }
  }

  /** Keys are only ever added. */
  lemma {:induction false} KeysOnlyGrow(acc: map<string, PropValue>, props: seq<(string, Property)>)
    ensures acc.Keys <= ApplyProperties(acc, props).Keys
  {
    if |props| > 0 {
      KeysOnlyGrow(acc, props[..|props| - 1]);
    }
  }

  /** The result always holds `page_id` and `last_edited`; unless a property of that name
      overrides them, they are the page's id and its timestamp, "" when missing. */
  lemma PagePropertiesBase(page: PageRecord)
    ensures "page_id" in PageProperties(page) && "last_edited" in PageProperties(page)
    ensures (forall j :: 0 <= j < |page.properties| ==> !WritesKey(page.properties[j], "last_edited"))
            ==> PageProperties(page)["last_edited"] == TextValue(page.lastEditedTime.GetOr(""))
  {
    KeysOnlyGrow(BaseProperties(page), page.properties);
    if forall j :: 0 <= j < |page.properties| ==> !WritesKey(page.properties[j], "last_edited") {
      UnwrittenKeyKept(BaseProperties(page), page.properties, "last_edited");
    }
  }

  /** A select property with no value adds nothing; a chosen one adds its option name. */
  lemma SelectIncludedOnlyWhenSet(page: PageRecord, k: nat)
    requires k < |page.properties| && page.properties[k].1.SelectProp?
    requires page.properties[k].0 !in BaseProperties(page)
    requires forall j :: 0 <= j < |page.properties| && j != k ==> !WritesKey(page.properties[j], page.properties[k].0)
    ensures page.properties[k].1.select.None? ==> page.properties[k].0 !in PageProperties(page)
    ensures page.properties[k].1.select.Some? ==>
              page.properties[k].0 in PageProperties(page) &&
              PageProperties(page)[page.properties[k].0] == TextValue(page.properties[k].1.select.value.name)
  {
    var name := page.properties[k].0;
    if page.properties[k].1.select.None? {
      UnwrittenKeyKept(BaseProperties(page), page.properties, name);
    } else {
      LastWriterWins(BaseProperties(page), page.properties, name, k);
    }
  }

  /** A multi-select property becomes the list of its option names, in order. */
  lemma MultiSelectNames(page: PageRecord, k: nat)
    requires k < |page.properties| && page.properties[k].1.MultiSelectProp?
    requires forall j :: k < j < |page.properties| ==> !WritesKey(page.properties[j], page.properties[k].0)
    ensures page.properties[k].0 in PageProperties(page)
    ensures PageProperties(page)[page.properties[k].0] == ListValue(OptionNames(page.properties[k].1.options))
  {
    LastWriterWins(BaseProperties(page), page.properties, page.properties[k].0, k);
  }

  /** `get_page_properties` after the page has been retrieved: fills the result
      dictionary one property at a time. */
  method GetPageProperties(page: PageRecord) returns (result: map<string, PropValue>)
    ensures result == PageProperties(page)
    ensures "page_id" in result && "last_edited" in result
  {
    var props := page.properties;
    result := map["page_id" := TextValue(page.id), "last_edited" := TextValue(page.lastEditedTime.GetOr(""))];
    for i := 0 to |props|
      invariant result == ApplyProperties(BaseProperties(page), props[..i])
    {
      var name := props[i].0;
      var prop := props[i].1;
      assert props[..i + 1][..i] == props[..i];
      match prop
      case TitleProp(t) =>
        result := result["title" := TextValue(ExtractRichText(t))];
      case SelectProp(s) =>
        if s.Some? {
          result := result[name := TextValue(s.value.name)];
        }
      case MultiSelectProp(os) =>
        result := result[name := ListValue(OptionNames(os))];
      case UrlProp(u) =>
        result := result[name := if u.Some? then TextValue(u.value) else NullValue];
      case RichTextProp(rt) =>
        result := result[name := TextValue(ExtractRichText(rt))];
      case OtherProp(_) =>
    }
    assert props[..|props|] == props;
    PagePropertiesBase(page);
  }
}
