/** Image URL resolution, the MIME filter and the vision-reply parser of
    notion_rag/image.py. The download and the model call are inputs. */
module Image {
  import opened Wrappers
  import opened Strings
  import Config

  // ---------------------------------------------------------------------------
  // Image URL
  // ---------------------------------------------------------------------------

  /** A `file` or `external` object of an image block; its `url` may be missing. */
  datatype Hosted = Hosted(url: Option<string>)

  /** The data of an image block: which of the two keys are present. */
  datatype ImageData = ImageData(file: Option<Hosted>, external: Option<Hosted>)

  /** `get_image_url`: the `file` url when a `file` key is present (even if its url is
      missing), else the `external` url, else "". */
  function GetImageUrl(data: ImageData): (url: string)
    ensures data.file.Some? ==> url == data.file.value.url.GetOr("")
    ensures data.file.None? && data.external.Some? ==> url == data.external.value.url.GetOr("")
    ensures data.file.None? && data.external.None? ==> url == ""
  {
    if data.file.Some? then data.file.value.url.GetOr("")
    else if data.external.Some? then data.external.value.url.GetOr("")
    else ""
  }

  // ---------------------------------------------------------------------------
  // Results
  // ---------------------------------------------------------------------------

  datatype ImageKind = Terminal | Diagram | OtherKind | ErrorKind

  /** The result dictionary of `describe_image`. */
  datatype ImageResult = ImageResult(kind: ImageKind, description: string, code: string, cost: real, elapsed: real)

  /** The failure result: type "error", no code, no cost. */
  function ErrorResult(message: string, elapsed: real): (r: ImageResult)
    ensures r.kind == ErrorKind && r.code == "" && r.cost == 0.0 && r.description == message
  {
    ImageResult(ErrorKind, message, "", 0.0, elapsed)
  }

  // ---------------------------------------------------------------------------
  // MIME filter
  // ---------------------------------------------------------------------------

  const SupportedTypes: set<string> := {"image/png", "image/jpeg", "image/webp", "image/heic", "image/heif"}

  /** The MIME type of a `content-type` header: text before the first ";", stripped;
      a missing header counts as "image/png". */
  function MimeOf(contentType: Option<string>): (mime: string)
    ensures ';' !in mime
    ensures contentType.None? ==> mime == "image/png"
    ensures contentType.Some? ==> mime == Strip(Before(contentType.value, ';'))
    ensures contentType.Some? && ';' !in contentType.value ==> mime == Strip(contentType.value)
  {
    PngMime();
    StripKeeps(Before(contentType.GetOr("image/png"), ';'), ';');
    Strip(Before(contentType.GetOr("image/png"), ';'))
  }

  lemma PngBefore()
    ensures Before("image/png", ';') == "image/png"
  {
    var s := "image/png";
    assert forall i :: 0 <= i < |s| ==> s[i] != ';';
  }

  lemma PngStrip()
    ensures Strip("image/png") == "image/png"
  {
    var s := "image/png";
    assert !IsSpace(s[0]) && !IsSpace(s[|s| - 1]);
    assert LStrip(s) == s;
    assert RStrip(s) == s;
  }

  lemma PngMime()
    ensures Strip(Before("image/png", ';')) == "image/png"
  {
    PngBefore();
    PngStrip();
  }

  /** A header with parameters has the MIME type of its first part. */
  lemma MimeIgnoresParameters(mime: string, params: string)
    requires ';' !in mime && Strip(mime) == mime
    ensures MimeOf(Some(mime + ";" + params)) == mime
  {
    var s := mime + ";" + params;
    assert s == mime + (";" + params);
    assert s[..|mime|] == mime;
    assert IndexOf(s, ';') == |mime| by { assert s[|mime|] == ';'; }
  }

  /** How the image download ended: an exception text, or a response and its
      optional `content-type` header. */
  datatype Download = DownloadFailed(reason: string) | Downloaded(contentType: Option<string>)

  /** The vision call's reply: its text (possibly None) and its optional usage
      metadata, each token count itself optional. */
  datatype VisionReply = VisionReply(text: Option<string>, usage: Option<(Option<nat>, Option<nat>)>)

  /** The cost of a vision call; 0.0 without usage metadata, a missing count as 0. */
  function VisionCost(usage: Option<(Option<nat>, Option<nat>)>): (cost: real)
    ensures cost >= 0.0
    ensures usage.None? ==> cost == 0.0
  {
    match usage
    case None => 0.0
    case Some(u) => Config.CalcCost(Config.ImageVisionModel, u.0.GetOr(0), u.1.GetOr(0))
  }

  // ---------------------------------------------------------------------------
  // Reply parser
  // ---------------------------------------------------------------------------

  datatype Section = NoSection | DescSection | CodeSection

  datatype Marker = TypeMarker | DescMarker | CodeMarker | NoMarker

  /** The scanner state: the classification so far, the open section and the lines
      collected for each section. */
  datatype ScanState = ScanState(kind: ImageKind, section: Section, descLines: seq<string>, codeLines: seq<string>)

  const InitialScan: ScanState := ScanState(OtherKind, NoSection, [], [])

  /** What the scanner reads off one line: its marker, the classification a TYPE line
      names, the stripped text after a DESCRIPTION: or CODE: marker, and the line
      right-stripped. */
  datatype LineInfo = LineInfo(marker: Marker, typeKind: ImageKind, afterMarker: string, trimmed: string)

  /** The classification a lower-cased TYPE value names; "terminal" is checked first. */
  function KindOf(value: string): (k: ImageKind)
    ensures k != ErrorKind
    ensures Contains(value, "terminal") ==> k == Terminal
    ensures k == Diagram <==> !Contains(value, "terminal") && Contains(value, "diagram")
    ensures !Contains(value, "terminal") && !Contains(value, "diagram") ==> k == OtherKind
  {
    if Contains(value, "terminal") then Terminal
    else if Contains(value, "diagram") then Diagram
    else OtherKind
  }

  /** Markers are matched case-insensitively on the stripped line, TYPE: first. */
  function Classify(line: string): (info: LineInfo)
    ensures info.typeKind != ErrorKind
    ensures info.trimmed == RStrip(line)
    ensures info.marker == TypeMarker <==> StartsWith(Upper(Strip(line)), "TYPE:")
    ensures info.marker == TypeMarker ==> info.typeKind == KindOf(Lower(Strip(Drop(Strip(line), 5))))
    ensures info.marker == DescMarker <==>
              !StartsWith(Upper(Strip(line)), "TYPE:") && StartsWith(Upper(Strip(line)), "DESCRIPTION:")
    ensures info.marker == CodeMarker <==>
              !StartsWith(Upper(Strip(line)), "TYPE:") && !StartsWith(Upper(Strip(line)), "DESCRIPTION:")
              && StartsWith(Upper(Strip(line)), "CODE:")
    ensures info.marker == DescMarker ==> info.afterMarker == Strip(Drop(Strip(line), 12))
    ensures info.marker == CodeMarker ==> info.afterMarker == Strip(Drop(Strip(line), 5))
  {
    var stripped := Strip(line);
    var upper := Upper(stripped);
    if StartsWith(upper, "TYPE:") then LineInfo(TypeMarker, KindOf(Lower(Strip(Drop(stripped, 5)))), "", RStrip(line))
    else if StartsWith(upper, "DESCRIPTION:") then LineInfo(DescMarker, OtherKind, Strip(Drop(stripped, 12)), RStrip(line))
    else if StartsWith(upper, "CODE:") then LineInfo(CodeMarker, OtherKind, Strip(Drop(stripped, 5)), RStrip(line))
    else LineInfo(NoMarker, OtherKind, "", RStrip(line))
  }

  function ClassifyAll(lines: seq<string>): (r: seq<LineInfo>)
    ensures |r| == |lines|
    ensures forall i :: 0 <= i < |r| ==> r[i].typeKind != ErrorKind
  {
    seq(|lines|, i requires 0 <= i < |lines| => Classify(lines[i]))
  }

  lemma ClassifyAllSnoc(lines: seq<string>, line: string)
    ensures ClassifyAll(lines + [line]) == ClassifyAll(lines) + [Classify(line)]
  {
    var a := ClassifyAll(lines + [line]);
    var b := ClassifyAll(lines) + [Classify(line)];
    assert |a| == |b|;
    forall k | 0 <= k < |a|
      ensures a[k] == b[k]
    {
      if k < |lines| {
        assert (lines + [line])[k] == lines[k];
      } else {
        assert (lines + [line])[k] == line;
      }
    }
  }

  /** One step of the line scanner. */
  function Step(st: ScanState, l: LineInfo): (r: ScanState)
    ensures l.marker == TypeMarker ==> r == st.(kind := l.typeKind, section := NoSection)
    ensures l.marker != TypeMarker ==> r.kind == st.kind
    ensures l.marker == DescMarker ==> r == st.(descLines := st.descLines + [l.afterMarker], section := DescSection)
    ensures l.marker == CodeMarker && l.afterMarker != "" ==>
              r == st.(codeLines := st.codeLines + [l.afterMarker], section := CodeSection)
    ensures l.marker == CodeMarker && l.afterMarker == "" ==> r == st.(section := CodeSection)
    ensures l.marker == NoMarker && st.section == DescSection ==> r == st.(descLines := st.descLines + [l.trimmed])
    ensures l.marker == NoMarker && st.section == CodeSection ==> r == st.(codeLines := st.codeLines + [l.trimmed])
    ensures l.marker == NoMarker && st.section == NoSection ==> r == st
  {
    match l.marker
    case TypeMarker => st.(kind := l.typeKind, section := NoSection)
    case DescMarker => st.(descLines := st.descLines + [l.afterMarker], section := DescSection)
    case CodeMarker =>
      st.(codeLines := if l.afterMarker != "" then st.codeLines + [l.afterMarker] else st.codeLines, section := CodeSection)
    case NoMarker =>
      if st.section == DescSection then st.(descLines := st.descLines + [l.trimmed])
      else if st.section == CodeSection then st.(codeLines := st.codeLines + [l.trimmed])
      else st
  }

  /** The scanner run over classified lines from `st`. */
  function Steps(st: ScanState, ls: seq<LineInfo>): ScanState
  {
    if |ls| == 0 then st else Step(Steps(st, ls[..|ls| - 1]), ls[|ls| - 1])
  }

  /** The scanner run over the lines of a reply. */
  function Scan(lines: seq<string>): ScanState
  {
    Steps(InitialScan, ClassifyAll(lines))
  }

  lemma {:induction false} StepsAppend(st: ScanState, a: seq<LineInfo>, b: seq<LineInfo>)
    ensures Steps(st, a + b) == Steps(Steps(st, a), b)
  {
    if |b| == 0 {
      assert a + b == a;
    } else {
      assert (a + b)[..|a + b| - 1] == a + b[..|b| - 1];
      StepsAppend(st, a, b[..|b| - 1]);
    }
  }

  /** The classification is never "error". */
  lemma {:induction false} NeverError(st: ScanState, ls: seq<LineInfo>)
    requires st.kind != ErrorKind
    requires forall i :: 0 <= i < |ls| ==> ls[i].typeKind != ErrorKind
    ensures Steps(st, ls).kind != ErrorKind
  {
    if |ls| > 0 {
      var init := ls[..|ls| - 1];
      assert forall i :: 0 <= i < |init| ==> init[i] == ls[i];
      NeverError(st, init);
    }
  }

  /** Without a TYPE line the classification stays what it was. */
  lemma {:induction false} NoTypeLineKeepsKind(st: ScanState, ls: seq<LineInfo>)
    requires forall i :: 0 <= i < |ls| ==> ls[i].marker != TypeMarker
    ensures Steps(st, ls).kind == st.kind
  {
    if |ls| > 0 {
      var init := ls[..|ls| - 1];
      assert forall i :: 0 <= i < |init| ==> init[i] == ls[i];
      NoTypeLineKeepsKind(st, init);
    }
  }

  /** The last TYPE line decides the classification. */
  lemma {:induction false} LastTypeLineDecides(st: ScanState, ls: seq<LineInfo>, k: nat)
    requires k < |ls| && ls[k].marker == TypeMarker
    requires forall i :: k < i < |ls| ==> ls[i].marker != TypeMarker
    ensures Steps(st, ls).kind == ls[k].typeKind
  {
    var n := |ls|;
    if k < n - 1 {
      var init := ls[..n - 1];
      assert init[k] == ls[k];
      assert forall i :: k < i < |init| ==> init[i] == ls[i];
      LastTypeLineDecides(st, init, k);
    }
  }

  /** The right-stripped lines. */
  function Trimmed(ls: seq<LineInfo>): (r: seq<string>)
    ensures |r| == |ls|
    ensures forall i :: 0 <= i < |ls| ==> r[i] == ls[i].trimmed
  {
    seq(|ls|, i requires 0 <= i < |ls| => ls[i].trimmed)
  }

  lemma TrimmedSnoc(ls: seq<LineInfo>)
    requires |ls| > 0
    ensures Trimmed(ls) == Trimmed(ls[..|ls| - 1]) + [ls[|ls| - 1].trimmed]
  {
  }

  /** Unmarked lines after DESCRIPTION: are collected, right-stripped, into the
      description, and nothing else changes. */
  lemma {:induction false} DescriptionBodyAccumulates(st: ScanState, body: seq<LineInfo>)
    requires st.section == DescSection
    requires forall i :: 0 <= i < |body| ==> body[i].marker == NoMarker
    ensures Steps(st, body) == st.(descLines := st.descLines + Trimmed(body))
  {
    var n := |body|;
    if n > 0 {
      var init := body[..n - 1];
      assert forall i :: 0 <= i < |init| ==> init[i] == body[i];
      DescriptionBodyAccumulates(st, init);
      TrimmedSnoc(body);
      assert st.descLines + Trimmed(body) == (st.descLines + Trimmed(init)) + [body[n - 1].trimmed];
    } else {
      assert st.descLines + Trimmed(body) == st.descLines;
    }
  }

  /** Unmarked lines after CODE: are collected, right-stripped, into the code. */
  lemma {:induction false} CodeBodyAccumulates(st: ScanState, body: seq<LineInfo>)
    requires st.section == CodeSection
    requires forall i :: 0 <= i < |body| ==> body[i].marker == NoMarker
    ensures Steps(st, body) == st.(codeLines := st.codeLines + Trimmed(body))
  {
    var n := |body|;
    if n > 0 {
      var init := body[..n - 1];
      assert forall i :: 0 <= i < |init| ==> init[i] == body[i];
      CodeBodyAccumulates(st, init);
      TrimmedSnoc(body);
      assert st.codeLines + Trimmed(body) == (st.codeLines + Trimmed(init)) + [body[n - 1].trimmed];
    } else {
      assert st.codeLines + Trimmed(body) == st.codeLines;
    }
  }

  /** Unmarked lines outside any section are ignored. */
  lemma {:induction false} UnsectionedLinesIgnored(st: ScanState, body: seq<LineInfo>)
    requires st.section == NoSection
    requires forall i :: 0 <= i < |body| ==> body[i].marker == NoMarker
    ensures Steps(st, body) == st
  {
    if |body| > 0 {
      var init := body[..|body| - 1];
      assert forall i :: 0 <= i < |init| ==> init[i] == body[i];
      UnsectionedLinesIgnored(st, init);
    }
  }

  /** A TYPE line closes the open section and keeps every collected line. */
  lemma TypeLineClosesSection(st: ScanState, line: string)
    requires StartsWith(Upper(Strip(line)), "TYPE:")
    ensures Step(st, Classify(line)).section == NoSection
    ensures Step(st, Classify(line)).descLines == st.descLines
    ensures Step(st, Classify(line)).codeLines == st.codeLines
  {
  }

  /** A DESCRIPTION line opens the description section with the text after its marker. */
  lemma DescriptionLineOpens(st: ScanState, line: string)
    requires !StartsWith(Upper(Strip(line)), "TYPE:") && StartsWith(Upper(Strip(line)), "DESCRIPTION:")
    ensures Step(st, Classify(line)) ==
              st.(descLines := st.descLines + [Strip(Drop(Strip(line), 12))], section := DescSection)
  {
  }

  /** A CODE line opens the code section, keeping the text after its marker unless it is empty. */
  lemma CodeLineOpens(st: ScanState, line: string)
    requires !StartsWith(Upper(Strip(line)), "TYPE:") && !StartsWith(Upper(Strip(line)), "DESCRIPTION:")
    requires StartsWith(Upper(Strip(line)), "CODE:")
    ensures Step(st, Classify(line)).section == CodeSection
    ensures Step(st, Classify(line)).descLines == st.descLines
    ensures Step(st, Classify(line)).codeLines ==
              if Strip(Drop(Strip(line), 5)) != "" then st.codeLines + [Strip(Drop(Strip(line), 5))] else st.codeLines
  {
  }

  /** The language-tag test on the first line of a fenced body. */
  predicate IsLanguageTag(firstLine: string) {
    firstLine != "" && !StartsWith(firstLine, " ") && |firstLine| < 20
  }

  /** Drops a closing fence, if there is one. */
  function TrimClosingFence(c: string): string
  {
    if EndsWith(c, "```") then c[..|c| - 3] else c
  }

  /** Drops the first line when it reads as a language tag. */
  function DropLanguageLine(c: string): string
  {
    var nl := IndexOf(c, '\n');
    if nl != -1 && IsLanguageTag(Strip(c[..nl])) then c[nl + 1..] else c
  }

  /** Removes wrapping triple backticks and an optional language tag line. */
  function StripFences(code: string): (r: string)
    ensures !(StartsWith(code, "```") && EndsWith(code, "```")) ==> r == code
  {
    if StartsWith(code, "```") && EndsWith(code, "```") then
      Strip(DropLanguageLine(TrimClosingFence(Drop(code, 3))))
    else code
  }

  lemma FencedParts(inner: string)
    ensures StartsWith("```" + inner + "```", "```") && EndsWith("```" + inner + "```", "```")
    ensures Drop("```" + inner + "```", 3) == inner + "```"
    ensures TrimClosingFence(inner + "```") == inner
  {
    var code := "```" + inner + "```";
    assert code[..3] == "```";
    assert code[|code| - 3..] == "```";
    assert code[3..] == inner + "```";
    var c1 := inner + "```";
    assert c1[|c1| - 3..] == "```";
    assert c1[..|c1| - 3] == inner;
  }

  lemma StripTrailingNewline(body: string)
    ensures Strip(body + "\n") == Strip(body)
  {
    assert AllSpace("") && AllSpace("\n") by { assert IsSpace("\n"[0]); }
    StripAround("", body, "\n");
    assert "" + body + "\n" == body + "\n";
  }

  lemma DropTagLine(tag: string, rest: string)
    requires '\n' !in tag && IsLanguageTag(Strip(tag))
    ensures DropLanguageLine(tag + "\n" + rest) == rest
  {
    var c := tag + "\n" + rest;
    assert c[|tag|] == '\n';
    assert c[..|tag|] == tag;
    assert IndexOf(c, '\n') == |tag|;
    assert c[|tag| + 1..] == rest;
  }

  lemma DropEmptyFirstLine(rest: string)
    ensures DropLanguageLine("\n" + rest) == "\n" + rest
  {
    var c := "\n" + rest;
    assert c[0] == '\n';
    assert IndexOf(c, '\n') == 0;
    assert c[..0] == "";
    assert Strip("") == "" by { LStripEmpty(""); }
  }

  /** The fence clean-up of a fenced code text, in terms of its inner text. */
  lemma StripFencesOfFenced(inner: string)
    ensures StripFences("```" + inner + "```") == Strip(DropLanguageLine(inner))
  {
    FencedParts(inner);
  }

  /** A body fenced by "```" lines loses its fences and surrounding whitespace. */
  lemma StripFencesPlain(body: string)
    ensures StripFences("```\n" + body + "\n```") == Strip(body)
  {
    var inner := "\n" + (body + "\n");
    var code := "```\n" + body + "\n```";
    assert code == "```" + inner + "```";
    assert StripFences(code) == Strip(DropLanguageLine(inner)) by {
      StripFencesOfFenced(inner);
    }
    assert DropLanguageLine(inner) == inner by {
      DropEmptyFirstLine(body + "\n");
    }
    assert Strip(inner) == Strip(body) by {
      StripNewlines(body);
    }
  }

  lemma StripNewlines(body: string)
    ensures Strip("\n" + (body + "\n")) == Strip(body)
  {
    assert AllSpace("\n") by { assert IsSpace("\n"[0]); }
    StripAround("\n", body, "\n");
    assert "\n" + body + "\n" == "\n" + (body + "\n");
  }

  /** A language tag on the opening fence line is dropped as well. */
  lemma StripFencesTagged(tag: string, body: string)
    requires '\n' !in tag && IsLanguageTag(Strip(tag))
    ensures StripFences("```" + tag + "\n" + body + "\n```") == Strip(body)
  {
    var inner := tag + "\n" + (body + "\n");
    var code := "```" + tag + "\n" + body + "\n```";
    assert code == "```" + inner + "```";
    assert StripFences(code) == Strip(DropLanguageLine(inner)) by {
      StripFencesOfFenced(inner);
    }
    assert DropLanguageLine(inner) == body + "\n" by {
      DropTagLine(tag, body + "\n");
    }
    assert Strip(body + "\n") == Strip(body) by {
      StripTrailingNewline(body);
    }
  }

  /** The result record, with the stripped raw reply as the description when both
      description and code came out empty. */
  function Assemble(kind: ImageKind, description: string, code: string, fallback: string, cost: real, elapsed: real): (r: ImageResult)
    ensures r.kind == kind && r.code == code && r.cost == cost && r.elapsed == elapsed
    ensures r.description == "" && r.code == "" ==> fallback == ""
    ensures description != "" || code != "" ==> r.description == description
    ensures description == "" && code == "" ==> r.description == fallback
  {
    if description == "" && code == "" then ImageResult(kind, fallback, code, cost, elapsed)
    else ImageResult(kind, description, code, cost, elapsed)
  }

  /** The result of `_parse_image_response`. */
  function ParseReply(raw: string, cost: real, elapsed: real): (r: ImageResult)
    ensures r.kind == Scan(Split(Strip(raw), '\n')).kind
    ensures r.cost == cost && r.elapsed == elapsed
    ensures r.description == "" && r.code == "" ==> Strip(raw) == ""
    ensures r.code == StripFences(Strip(Join(Scan(Split(Strip(raw), '\n')).codeLines, "\n")))
    ensures var d := Strip(Join(Scan(Split(Strip(raw), '\n')).descLines, "\n"));
            (d != "" || r.code != "" ==> r.description == d) && (d == "" && r.code == "" ==> r.description == Strip(raw))
  {
    var lines := Split(Strip(raw), '\n');
    var st := Scan(lines);
    Assemble(st.kind, Strip(Join(st.descLines, "\n")), StripFences(Strip(Join(st.codeLines, "\n"))), Strip(raw), cost, elapsed)
  }

  /** A line that carries no marker. */
  predicate Unmarked(line: string) {
    var upper := Upper(Strip(line));
    !StartsWith(upper, "TYPE:") && !StartsWith(upper, "DESCRIPTION:") && !StartsWith(upper, "CODE:")
  }



  /** A fence line carries no marker and is kept as it is. */
  lemma FenceLine(s: string)
    requires s == "```"
    ensures Classify(s) == LineInfo(NoMarker, OtherKind, "", s)
  {
    assert |Upper(Strip(s))| <= 3;
    assert RStrip(s) == s;
  }

  /** A bare CODE: line opens the code section with nothing after the marker. */
  lemma BareCodeLine(s: string)
    requires s == "CODE:"
    ensures Classify(s) == LineInfo(CodeMarker, OtherKind, "", s)
  {
    BareCodeText(s);
    CodeOnlyLine(s);
  }

  lemma BareCodeText(s: string)
    requires s == "CODE:"
    ensures Strip(s) == s && RStrip(s) == s && Upper(s) == s
    ensures !StartsWith(s, "TYPE:") && !StartsWith(s, "DESCRIPTION:") && StartsWith(s, "CODE:")
  {
    StripUnpadded(s);
    UpperChars(s);
  }

  /** A line that is exactly a CODE: marker. */
  lemma CodeOnlyLine(line: string)
    requires |Strip(line)| == 5
    requires !StartsWith(Upper(Strip(line)), "TYPE:") && !StartsWith(Upper(Strip(line)), "DESCRIPTION:")
    requires StartsWith(Upper(Strip(line)), "CODE:")
    ensures Classify(line) == LineInfo(CodeMarker, OtherKind, "", RStrip(line))
  {
    var rest := Drop(Strip(line), 5);
    assert |rest| == 0;
  }

  /** An unmarked line without edge whitespace is kept as it is. */
  lemma PlainLine(line: string)
    requires line != "" && !IsSpace(line[0]) && !IsSpace(line[|line| - 1])
    requires Unmarked(line)
    ensures Classify(line) == LineInfo(NoMarker, OtherKind, "", line)
  {
    StripUnpadded(line);
    assert RStrip(line) == line;
  }

  /** Text whose ends are not whitespace is its own strip. */
  lemma StripFencedEnds(s: string)
    requires s != "" && s[0] in "C`" && s[|s| - 1] == '`'
    ensures Strip(s) == s
  {
    StripUnpadded(s);
  }

  /** The lines of a CODE: reply with a fenced one-line body, joined and split again. */
  lemma FencedCodeLines(lines: seq<string>, body: string)
    requires body != "" && '\n' !in body
    requires |lines| == 4 && lines[0] == "CODE:" && lines[1] == "```" && lines[2] == body && lines[3] == "```"
    ensures Strip(Join(lines, "\n")) == Join(lines, "\n")
    ensures Split(Join(lines, "\n"), '\n') == lines
  {
    JoinEnds(lines, "\n");
    StripFencedEnds(Join(lines, "\n"));
    assert forall k :: 0 <= k < |lines| ==> '\n' !in lines[k] by {
      assert '\n' !in lines[0] && '\n' !in lines[1];
    }
    JoinSplit(lines, '\n');
  }

  /** Scanning a CODE: line, a fence, a plain line and a fence collects the last three as code. */
  lemma FencedCodeSteps(ls: seq<LineInfo>, fence: string, body: string)
    requires |ls| == 4 && ls[0] == LineInfo(CodeMarker, OtherKind, "", "CODE:")
    requires ls[1] == LineInfo(NoMarker, OtherKind, "", fence) && ls[3] == ls[1]
    requires ls[2] == LineInfo(NoMarker, OtherKind, "", body)
    ensures Steps(InitialScan, ls) == ScanState(OtherKind, CodeSection, [], [fence, body, fence])
  {
    var s1 := ScanState(OtherKind, CodeSection, [], []);
    assert Steps(InitialScan, ls[..1]) == s1 by {
      assert ls[..1][..0] == [] && ls[..1][0] == ls[0];
    }
    assert Steps(InitialScan, ls[..2]) == s1.(codeLines := [fence]) by {
      assert ls[..2][..1] == ls[..1] && ls[..2][1] == ls[1];
    }
    assert Steps(InitialScan, ls[..3]) == s1.(codeLines := [fence, body]) by {
      assert ls[..3][..2] == ls[..2] && ls[..3][2] == ls[2];
    }
    assert ls[..3] == ls[..|ls| - 1];
  }

  /** How each of the four lines of a fenced CODE: reply is classified. */
  lemma FencedCodeClassified(lines: seq<string>, body: string, k: nat)
    requires body != "" && !IsSpace(body[0]) && !IsSpace(body[|body| - 1]) && Unmarked(body)
    requires |lines| == 4 && lines[0] == "CODE:" && lines[1] == "```" && lines[2] == body && lines[3] == "```"
    requires k < 4
    ensures k == 0 ==> ClassifyAll(lines)[k] == LineInfo(CodeMarker, OtherKind, "", "CODE:")
    ensures k == 1 || k == 3 ==> ClassifyAll(lines)[k] == LineInfo(NoMarker, OtherKind, "", "```")
    ensures k == 2 ==> ClassifyAll(lines)[k] == LineInfo(NoMarker, OtherKind, "", body)
  {
    if k == 0 {
      BareCodeLine(lines[0]);
    } else if k == 2 {
      PlainLine(body);
    } else {
      FenceLine(lines[k]);
    }
  }

  /** Scanning those lines collects the two fences and the body as code lines. */
  lemma FencedCodeScan(lines: seq<string>, body: string)
    requires body != "" && !IsSpace(body[0]) && !IsSpace(body[|body| - 1]) && Unmarked(body)
    requires |lines| == 4 && lines[0] == "CODE:" && lines[1] == "```" && lines[2] == body && lines[3] == "```"
    ensures Scan(lines) == ScanState(OtherKind, CodeSection, [], ["```", body, "```"])
  {
    FencedCodeClassified(lines, body, 0);
    FencedCodeClassified(lines, body, 1);
    FencedCodeClassified(lines, body, 2);
    FencedCodeClassified(lines, body, 3);
    FencedCodeSteps(ClassifyAll(lines), "```", body);
  }

  /** The code lines "```", body, "```" clean up to the body. */
  lemma FencedCodeJoin(codeLines: seq<string>, body: string)
    requires body != "" && !IsSpace(body[0]) && !IsSpace(body[|body| - 1])
    requires codeLines == ["```", body, "```"]
    ensures StripFences(Strip(Join(codeLines, "\n"))) == body
  {
    var fence := "```";
    var joined := Join(codeLines, "\n");
    assert joined == fence + "\n" + (body + "\n" + fence) by {
      assert codeLines[1..] == [body, fence];
      assert codeLines[1..][1..] == [fence];
      assert Join([fence], "\n") == fence;
      assert Join([body, fence], "\n") == body + "\n" + fence;
    }
    assert joined == "```\n" + body + "\n```";
    StripFencedEnds(joined);
    StripFencesPlain(body);
    StripUnpadded(body);
  }

  /** A reply holding only a CODE: marker line and a fenced one-line body parses to that
      body: classification "other", no description. */
  lemma FencedCodeReply(lines: seq<string>, body: string, cost: real, elapsed: real)
    requires body != "" && '\n' !in body && !IsSpace(body[0]) && !IsSpace(body[|body| - 1])
    requires Unmarked(body)
    requires |lines| == 4 && lines[0] == "CODE:" && lines[1] == "```" && lines[2] == body && lines[3] == "```"
    ensures ParseReply(Join(lines, "\n"), cost, elapsed) == ImageResult(OtherKind, "", body, cost, elapsed)
  {
    FencedCodeLines(lines, body);
    FencedCodeScan(lines, body);
    var st := Scan(lines);
    FencedCodeJoin(st.codeLines, body);
    assert Strip(Join(st.descLines, "\n")) == "" by {
      LStripEmpty("");
    }
  }

  /** The reply "CODE:", "```", "ls -la", "```" yields the code "ls -la". */
  lemma FencedCommandReply(lines: seq<string>, cost: real, elapsed: real)
    requires |lines| == 4 && lines[0] == "CODE:" && lines[1] == "```" && lines[2] == "ls -la" && lines[3] == "```"
    ensures ParseReply(Join(lines, "\n"), cost, elapsed) == ImageResult(OtherKind, "", "ls -la", cost, elapsed)
  {
    CommandUnmarked(lines[2]);
    FencedCodeReply(lines, lines[2], cost, elapsed);
  }

  lemma CommandUnmarked(body: string)
    requires body == "ls -la"
    ensures body != "" && '\n' !in body && !IsSpace(body[0]) && !IsSpace(body[|body| - 1]) && Unmarked(body)
  {
    StripUnpadded(body);
    UpperChars(body);
    assert Upper(body)[0] == 'L';
  }

  /** A parsed reply is classified terminal, diagram or other, never "error". */
  lemma ParsedKindNeverError(raw: string, cost: real, elapsed: real)
    ensures ParseReply(raw, cost, elapsed).kind != ErrorKind
  {
    NeverError(InitialScan, ClassifyAll(Split(Strip(raw), '\n')));
  }

  /** Lines without any TYPE line are classified "other". */
  lemma DefaultKindIsOther(lines: seq<string>)
    requires forall i :: 0 <= i < |lines| ==> !StartsWith(Upper(Strip(lines[i])), "TYPE:")
    ensures Scan(lines).kind == OtherKind
  {
    var ls := ClassifyAll(lines);
    assert forall i :: 0 <= i < |ls| ==> ls[i].marker != TypeMarker;
    NoTypeLineKeepsKind(InitialScan, ls);
  }

  /** The classification is the one the last TYPE line names. */
  lemma KindFromLastTypeLine(lines: seq<string>, k: nat)
    requires k < |lines| && StartsWith(Upper(Strip(lines[k])), "TYPE:")
    requires forall i :: k < i < |lines| ==> !StartsWith(Upper(Strip(lines[i])), "TYPE:")
    ensures Scan(lines).kind == KindOf(Lower(Strip(Drop(Strip(lines[k]), 5))))
  {
    var ls := ClassifyAll(lines);
    assert forall i :: k <= i < |ls| ==> ls[i] == Classify(lines[i]);
    LastTypeLineDecides(InitialScan, ls, k);
  }

  /** The fence clean-up at the end of `_parse_image_response`, step by step. */
  method CleanCode(joined: string) returns (code: string)
    ensures code == StripFences(joined)
  {
    code := joined;
    if StartsWith(code, "```") && EndsWith(code, "```") {
      code := Drop(code, 3);
      if EndsWith(code, "```") {
        code := code[..|code| - 3];
      }
      assert code == TrimClosingFence(Drop(joined, 3));
      var firstNl := IndexOf(code, '\n');
      if firstNl != -1 {
        var firstLine := Strip(code[..firstNl]);
        if firstLine != "" && !StartsWith(firstLine, " ") && |firstLine| < 20 {
          code := code[firstNl + 1..];
        }
      }
      assert code == DropLanguageLine(TrimClosingFence(Drop(joined, 3)));
      code := Strip(code);
    }
  }

  /** The scanner run over one more line. */
  lemma ScanSnoc(lines: seq<string>, line: string)
    ensures Scan(lines + [line]) == Step(Scan(lines), Classify(line))
  {
    ClassifyAllSnoc(lines, line);
  }

  /** The scanner over one more line of the reply. */
  lemma ScanPrefix(lines: seq<string>, i: nat)
    requires i < |lines|
    ensures Scan(lines[..i + 1]) == Step(Scan(lines[..i]), Classify(lines[i]))
  {
    assert lines[..i + 1] == lines[..i] + [lines[i]];
    ScanSnoc(lines[..i], lines[i]);
  }

  /** The body of the line loop of `_parse_image_response`: one line. */
  method ScanLine(kind0: ImageKind, section0: Section, desc0: seq<string>, code0: seq<string>, line: string)
    returns (kind: ImageKind, section: Section, descLines: seq<string>, codeLines: seq<string>)
    ensures ScanState(kind, section, descLines, codeLines) == Step(ScanState(kind0, section0, desc0, code0), Classify(line))
  {
    kind, section, descLines, codeLines := kind0, section0, desc0, code0;
    var stripped := Strip(line);
    var upper := Upper(stripped);
    if StartsWith(upper, "TYPE:") {
      var value := Lower(Strip(Drop(stripped, 5)));
      if Contains(value, "terminal") {
        kind := Terminal;
      } else if Contains(value, "diagram") {
        kind := Diagram;
      } else {
        kind := OtherKind;
      }
      section := NoSection;
    } else if StartsWith(upper, "DESCRIPTION:") {
      descLines := descLines + [Strip(Drop(stripped, 12))];
      section := DescSection;
    } else if StartsWith(upper, "CODE:") {
      var remainder := Strip(Drop(stripped, 5));
      if remainder != "" {
        codeLines := codeLines + [remainder];
      }
      section := CodeSection;
    } else if section == DescSection {
      descLines := descLines + [RStrip(line)];
    } else if section == CodeSection {
      codeLines := codeLines + [RStrip(line)];
    }
  }

  /** The line loop of `_parse_image_response`. */
  method ScanReplyLines(lines: seq<string>) returns (kind: ImageKind, descLines: seq<string>, codeLines: seq<string>)
    ensures kind == Scan(lines).kind
    ensures descLines == Scan(lines).descLines
    ensures codeLines == Scan(lines).codeLines
  {
    kind := OtherKind;
    var section := NoSection;
    codeLines := [];
    descLines := [];
    for i := 0 to |lines|
      invariant ScanState(kind, section, descLines, codeLines) == Scan(lines[..i])
    {
      ScanPrefix(lines, i);
      kind, section, descLines, codeLines := ScanLine(kind, section, descLines, codeLines, lines[i]);
    }
    assert lines[..|lines|] == lines;
  }

  /** `_parse_image_response`: scans the reply line by line, then cleans up the code. */
  method ParseImageResponse(raw: string, cost: real, elapsed: real) returns (r: ImageResult)
    ensures r == ParseReply(raw, cost, elapsed)
  {
    var lines := Split(Strip(raw), '\n');
    var kind, descLines, codeLines := ScanReplyLines(lines);
    var description := Strip(Join(descLines, "\n"));
    var code := CleanCode(Strip(Join(codeLines, "\n")));
    if description == "" && code == "" {
      description := Strip(raw);
    }
    r := ImageResult(kind, description, code, cost, elapsed);
  }

  // ---------------------------------------------------------------------------
  // describe_image
  // ---------------------------------------------------------------------------

  /** `describe_image` with the download and the model call given as inputs. */
  method DescribeImage(download: Download, reply: VisionReply, elapsed: real) returns (r: ImageResult)
    ensures download.DownloadFailed? ==>
              r == ErrorResult("[Image could not be downloaded: " + download.reason + "]", elapsed)
    ensures download.Downloaded? && MimeOf(download.contentType) !in SupportedTypes ==>
              r == ErrorResult("[Image skipped: unsupported format (" + MimeOf(download.contentType) + ")]", elapsed)
    ensures download.Downloaded? && MimeOf(download.contentType) in SupportedTypes ==>
              r == ParseReply(reply.text.GetOr(""), VisionCost(reply.usage), elapsed)
    ensures r.kind == ErrorKind ==> r.cost == 0.0 && r.code == ""
    ensures r.cost >= 0.0
  {
    if download.DownloadFailed? {
      return ErrorResult("[Image could not be downloaded: " + download.reason + "]", elapsed);
    }
    var mimeType := MimeOf(download.contentType);
    if mimeType !in SupportedTypes {
      return ErrorResult("[Image skipped: unsupported format (" + mimeType + ")]", elapsed);
    }
    var raw := reply.text.GetOr("");
    var cost := VisionCost(reply.usage);
    r := ParseImageResponse(raw, cost, elapsed);
    ParsedKindNeverError(raw, cost, elapsed);
  }

  /** A download without a content-type header is treated as PNG and analysed. */
  lemma MissingContentTypeIsPng()
    ensures MimeOf(None) in SupportedTypes
  {
  }
}
