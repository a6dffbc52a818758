/**
 * The OAI-PMH harvest of `oaiharvester/harvester.py`: `ListRecords` requests
 * (section 4.5 of OAI-PMH v2.0) paged by resumption tokens (section 3.5), each
 * response kept as a `Chunk`. HTTP answers, the XML parser and the directory
 * listing are parameters: a `Response` per try, a parse function from text
 * to page trees or records, and the number of files already saved.
 */
module Harvester {
  import opened Wrappers
  import opened Text
  import opened Calendar
  import opened Marc
  import opened Records
  import Tools

  const TokenOpen: string := "<resumptionToken>"
  const TokenClose: string := "</resumptionToken>"
  const RecordOpen: string := "<record>"
  const RecordClose: string := "</record>"
  /** The open tag a record fragment of an unparsable page is given. */
  const NamespacedRecordOpen: string :=
    "<record xmlns=\"http://www.openarchives.org/OAI/2.0/\" xmlns:xsi=\"http://www.w3.org/2001/XMLSchema-instance\">"

  const FetchFailed: string := "Impossible to fetch chunk data"
  const NoFreeSpace: string := "Not enough free space to save the chunk"
  const BadXml: string := "Badly formatted xml data"
  const NoRecords: string := "No records in chunk"
  const MaxTries: nat := 3

  // ---------------------------------------------------------------
  // Pages
  // ---------------------------------------------------------------

  /** A parsed page: its `resumptionToken` element, its
    * `ListRecords/record` elements and its `error_message` element. */
  datatype PageTree = PageTree(resumptionToken: Element, records: seq<OaiRecord>, errorMessage: Element)

  /** The answer to one try of `requests.get`: a response that is ok with its
    * body, one that is not ok, or a `RequestException`. */
  datatype Response = Ok(body: string) | NotOk | Failed

  /** One query parameter; `requests` leaves out a parameter whose value is `None`. */
  datatype Param = Param(key: string, value: Option<string>)

  /** A chunk's state once built. */
  datatype ChunkState = ChunkState(
    path: string,
    content: Option<string>,
    tree: Option<PageTree>,
    records: seq<XmlSource>,
    error: bool,
    errorMessages: seq<string>)

  // ---------------------------------------------------------------
  // fetch_data
  // ---------------------------------------------------------------

  /** The query of `fetch_data`: the first request names the set and the
    * dates, a continuation sends only the token. */
  function RequestParams(setName: string, from: Option<string>, until: Option<string>, token: Option<string>): seq<Param>
  {
    if token.None? then
      [Param("verb", Some("ListRecords")), Param("metadataPrefix", Some("marc21")),
       Param("set", Some(setName)), Param("from", from), Param("until", until)]
    else
      [Param("verb", Some("ListRecords")), Param("resumptionToken", token)]
  }

  function Keys(ps: seq<Param>): set<string>
  {
    set k | 0 <= k < |ps| :: ps[k].key
  }

  /** A continuation carries the token as its only argument beside the verb
    * (the exclusive argument of section 3.5 of OAI-PMH v2.0); the first request
    * asks for MARC 21 records of the set between the dates. */
  lemma ParamsContract(setName: string, from: Option<string>, until: Option<string>, token: Option<string>)
    ensures var ps := RequestParams(setName, from, until, token);
            Param("verb", Some("ListRecords")) in ps &&
            (token.Some? ==> Keys(ps) == {"verb", "resumptionToken"} && Param("resumptionToken", token) in ps) &&
            (token.None? ==>
               Keys(ps) == {"verb", "metadataPrefix", "set", "from", "until"} &&
               Param("metadataPrefix", Some("marc21")) in ps && Param("set", Some(setName)) in ps &&
               Param("from", from) in ps && Param("until", until) in ps)
  {
    var ps := RequestParams(setName, from, until, token);
    if token.Some? {
      assert ps[0].key == "verb" && ps[1].key == "resumptionToken";
    } else {
      assert ps[0].key == "verb" && ps[1].key == "metadataPrefix" && ps[2].key == "set";
      assert ps[3].key == "from" && ps[4].key == "until";
    }
  }

  /** The answer to try `k`; tries the oracle does not cover raise. */
  function Answer(rs: seq<Response>, k: nat): Response
  {
    if k < |rs| then rs[k] else Failed
  }

  /** The number of requests made: up to and including the first ok answer,
    * at most three. */
  function Tries(rs: seq<Response>, k: nat := 0): (n: nat)
    requires k < MaxTries
    decreases MaxTries - k
    ensures k < n <= MaxTries
    ensures forall j :: k <= j < n - 1 ==> !Answer(rs, j).Ok?
    ensures n < MaxTries ==> Answer(rs, n - 1).Ok?
  {
    if k == MaxTries - 1 || Answer(rs, k).Ok? then k + 1 else Tries(rs, k + 1)
  }

  /** What `fetch_data` leaves: the content, the `error` flag and the messages it adds. */
  datatype Fetch = Fetch(content: Option<string>, error: bool, messages: seq<string>)

  function Fetched(rs: seq<Response>): Fetch
  {
    match Answer(rs, Tries(rs) - 1)
    case Ok(body) => Fetch(Some(body), false, [])
    case NotOk => Fetch(None, true, [FetchFailed])
    case Failed => Fetch(None, false, [FetchFailed])
  }

  /** `fetch_data`: the body of the first ok answer among three tries; when
    * there is none, the failure message, with the `error` flag only when the
    * last try got a response that was not ok. */
  lemma FetchContract(rs: seq<Response>)
    ensures var f := Fetched(rs);
            (f.content.Some? <==> exists j :: 0 <= j < MaxTries && Answer(rs, j).Ok?) &&
            (forall j :: (0 <= j < MaxTries && Answer(rs, j).Ok? && (forall i :: 0 <= i < j ==> !Answer(rs, i).Ok?)) ==>
                         f.content == Some(Answer(rs, j).body)) &&
            (f.content.None? <==> f.messages == [FetchFailed]) &&
            (f.content.Some? ==> f.messages == [] && !f.error) &&
            (f.error <==> f.content.None? && Answer(rs, MaxTries - 1).NotOk?)
  {
    var n := Tries(rs);
    forall j | 0 <= j < MaxTries && Answer(rs, j).Ok? && (forall i :: 0 <= i < j ==> !Answer(rs, i).Ok?)
      ensures n == j + 1
    {
    }
  }

  // ---------------------------------------------------------------
  // get_resumption_token
  // ---------------------------------------------------------------

  /** The textual token of an unparsable page: between the last opening and
    * the last closing `resumptionToken` tag. */
  function TokenFallback(text: string): string
  {
    Slice(text, RFind(text, TokenOpen) + |TokenOpen|, RFind(text, TokenClose))
  }

  /** `get_resumption_token`. */
  function TokenOf(c: ChunkState): Option<string>
  {
    if c.tree.Some? && c.tree.value.resumptionToken.Present? &&
       c.tree.value.resumptionToken.text.Some? && |c.tree.value.resumptionToken.text.value| > 0 then
      c.tree.value.resumptionToken.text
    else if c.error && BadXml in c.errorMessages && c.content.Some? then
      Some(TokenFallback(c.content.value))
    else None
  }

  /** When the last opening tag comes before the last closing one, the fallback
    * is the text between them. Without either tag it is still a string (the
    * slice from 16 to the end less one character), never `None`. */
  lemma TokenFallbackContract(text: string)
    ensures var b := RFind(text, TokenOpen);
            var e := RFind(text, TokenClose);
            var r := TokenFallback(text);
            (b >= 0 && b + |TokenOpen| <= e ==>
               r == text[b + |TokenOpen|..e] && text[b..b + |TokenOpen|] == TokenOpen &&
               text[e..e + |TokenClose|] == TokenClose &&
               !Contains(text[b + 1..], TokenOpen)) &&
            (!Contains(text, TokenOpen) && !Contains(text, TokenClose) ==> r == Slice(text, |TokenOpen| - 1, -1))
  {
    var b := RFind(text, TokenOpen);
    if b >= 0 {
      LastOpenTag(text, b);
    }
  }

  /** No opening tag follows the last one. */
  lemma LastOpenTag(text: string, b: int)
    requires b == RFind(text, TokenOpen) && b >= 0
    ensures !Contains(text[b + 1..], TokenOpen)
  {
    if Contains(text[b + 1..], TokenOpen) {
      var j :| 0 <= j <= |text[b + 1..]| - |TokenOpen| && OccursAt(text[b + 1..], TokenOpen, j);
      assert text[b + 1..][j..j + |TokenOpen|] == text[b + 1 + j..b + 1 + j + |TokenOpen|];
      assert OccursAt(text, TokenOpen, b + 1 + j);
    }
  }

  /** A page flagged as badly formatted always yields a token, so paging goes
    * on, even when the text holds no token at all: a short page gives `""`. */
  lemma FallbackNeverNone(c: ChunkState)
    requires c.tree.None? && c.error && BadXml in c.errorMessages && c.content.Some?
    ensures TokenOf(c) == Some(TokenFallback(c.content.value))
    ensures |c.content.value| <= |TokenOpen| && !Contains(c.content.value, TokenClose) ==> TokenOf(c) == Some("")
  {
  }

  // ---------------------------------------------------------------
  // get_records
  // ---------------------------------------------------------------

  /** A piece of the split text, cut just after its last closing record tag. */
  function CutAtClose(piece: string): (r: string)
    requires Contains(piece, RecordClose)
    ensures |r| <= |piece| && r == piece[..|r|] && EndsWith(r, RecordClose)
    ensures forall j :: |r| - |RecordClose| < j ==> !OccursAt(piece, RecordClose, j)
  {
    var e := RFind(piece, RecordClose);
    piece[..e + |RecordClose|]
  }

  /** The pieces that hold a closing record tag, each cut and given the
    * namespaced opening tag. */
  function Fragments(pieces: seq<string>): (r: seq<string>)
    ensures |r| <= |pieces|
    ensures forall k :: 0 <= k < |r| ==> StartsWith(r[k], NamespacedRecordOpen) && EndsWith(r[k], RecordClose)
  {
    if |pieces| == 0 then []
    else
      var rest := Fragments(pieces[1..]);
      if Contains(pieces[0], RecordClose) then
        var f := NamespacedRecordOpen + CutAtClose(pieces[0]);
        FragmentShape(pieces[0]);
        assert forall k :: 0 < k < 1 + |rest| ==> ([f] + rest)[k] == rest[k - 1];
        [f] + rest
      else rest
  }

  /** A piece with a closing tag, cut there and given the namespaced opening
    * tag, starts with that tag and ends with the closing one. */
  lemma FragmentShape(piece: string)
    requires Contains(piece, RecordClose)
    ensures var f := NamespacedRecordOpen + CutAtClose(piece);
            StartsWith(f, NamespacedRecordOpen) && EndsWith(f, RecordClose)
  {
    var c := CutAtClose(piece);
    var f := NamespacedRecordOpen + c;
    assert f[..|NamespacedRecordOpen|] == NamespacedRecordOpen;
    assert f[|f| - |RecordClose|..] == c[|c| - |RecordClose|..];
  }

  /** The record fragments of an unparsable page: the text is split on the
    * plain opening record tag and every piece after the first is a candidate. */
  function RecordsFallback(text: string): seq<string>
  {
    var pieces := Split(text, RecordOpen);
    if |pieces| > 1 then Fragments(pieces[1..]) else []
  }

  /** How many pieces hold a closing record tag. */
  function CountClosed(pieces: seq<string>): nat
  {
    if |pieces| == 0 then 0
    else (if Contains(pieces[0], RecordClose) then 1 else 0) + CountClosed(pieces[1..])
  }

  lemma {:induction false} FragmentsBodies(pieces: seq<string>)
    requires forall k :: 0 <= k < |pieces| ==> !Contains(pieces[k], RecordOpen)
    ensures |Fragments(pieces)| == CountClosed(pieces)
    ensures forall k :: 0 <= k < |Fragments(pieces)| ==>
              !Contains(Fragments(pieces)[k][|NamespacedRecordOpen|..], RecordOpen)
  {
    if |pieces| > 0 {
      FragmentsBodies(pieces[1..]);
      var rest := Fragments(pieces[1..]);
      if Contains(pieces[0], RecordClose) {
        var cut := CutAtClose(pieces[0]);
        NotContainsPrefix(pieces[0], RecordOpen, |cut|);
        var f := NamespacedRecordOpen + cut;
        assert f[|NamespacedRecordOpen|..] == cut;
        assert Fragments(pieces) == [f] + rest;
      }
    }
  }

  /** `get_records` on an unparsable page: one fragment per piece after the
    * first that holds a closing tag, each made of the namespaced opening tag
    * and a body that ends with the closing tag and holds no plain opening tag;
    * none when the text holds no opening tag. */
  lemma RecordsFallbackContract(text: string)
    ensures var r := RecordsFallback(text);
            var pieces := Split(text, RecordOpen);
            (!Contains(text, RecordOpen) ==> r == []) &&
            |r| == (if |pieces| > 1 then CountClosed(pieces[1..]) else 0) &&
            forall k :: 0 <= k < |r| ==>
              StartsWith(r[k], NamespacedRecordOpen) && EndsWith(r[k], RecordClose) &&
              !Contains(r[k][|NamespacedRecordOpen|..], RecordOpen)
  {
    var pieces := Split(text, RecordOpen);
    SplitPiecesFree(text, RecordOpen);
    if |pieces| > 1 {
      var tail := pieces[1..];
      assert forall k :: 0 <= k < |tail| ==> tail[k] == pieces[k + 1];
      FragmentsBodies(tail);
    }
  }

  /** What `XmlRecord` is built from for a fragment: its parse, or the text. */
  function SourceOf(parseRecord: string -> Option<OaiRecord>, fragment: string): XmlSource
  {
    if parseRecord(fragment).Some? then Parsed(parseRecord(fragment).value) else Unparsable(fragment)
  }

  /** `get_records`: the record elements of a parsed page, the fragments of an
    * unparsable one, nothing without content. */
  function RecordSources(content: Option<string>, tree: Option<PageTree>,
                         parseRecord: string -> Option<OaiRecord>): (r: seq<XmlSource>)
    ensures tree.Some? ==> |r| == |tree.value.records| &&
                           forall k :: 0 <= k < |r| ==> r[k] == Parsed(tree.value.records[k])
    ensures tree.None? && content.Some? ==>
              |r| == |RecordsFallback(content.value)| &&
              forall k :: 0 <= k < |r| ==> r[k] == SourceOf(parseRecord, RecordsFallback(content.value)[k])
    ensures tree.None? && content.None? ==> r == []
  {
    if tree.Some? then
      seq(|tree.value.records|, k requires 0 <= k < |tree.value.records| => Parsed(tree.value.records[k]))
    else if content.Some? then
      var fs := RecordsFallback(content.value);
      seq(|fs|, k requires 0 <= k < |fs| => SourceOf(parseRecord, fs[k]))
    else []
  }

  /** `__init__` raises while `get_records` builds the records: an
    * `XmlRecord` built from a deleted record without an identifier element
    * raises `AttributeError` (`Records.LookupMmsId`), and so the chunk is
    * never built. */
  predicate BuildRaises(c: ChunkState)
  {
    !NoneRaise(c.records)
  }

  // ---------------------------------------------------------------
  // Chunk
  // ---------------------------------------------------------------

  /** The text of an `error_message` element; an element without text
    * contributes `""` here where Python appends `None`. */
  function ElementText(e: Element): string
  {
    if e.Present? && e.text.Some? then e.text.value else ""
  }

  /** A chunk built from `content`, after `fetch_data` (or the file read) left
    * `error` and `msgs`: the page is parsed, its records taken, and a chunk
    * without records is flagged. */
  function Loaded(path: string, content: Option<string>, error: bool, msgs: seq<string>,
                  parsePage: string -> Option<PageTree>, parseRecord: string -> Option<OaiRecord>): ChunkState
  {
    var tree := if content.None? then None else parsePage(content.value);
    var bad := content.Some? && tree.None?;
    var msgs1 := msgs + (if bad then [BadXml] else []);
    var recs := RecordSources(content, tree, parseRecord);
    if |recs| == 0 then
      var extra := if tree.Some? && tree.value.errorMessage.Present? then [ElementText(tree.value.errorMessage)] else [];
      ChunkState(path, content, tree, recs, true, msgs1 + [NoRecords] + extra)
    else ChunkState(path, content, tree, recs, error || bad, msgs1)
  }

  /** A chunk without records is in error with the message, followed by the
    * server's `error_message` text when the page has that element; a chunk with
    * records keeps the flag and messages of the fetch and the parse. A parsed
    * page's token is its element's non-empty text, never the fallback (unless
    * the server's error text is the parse-failure message itself). */
  lemma LoadedContract(path: string, content: Option<string>, error: bool, msgs: seq<string>,
                       parsePage: string -> Option<PageTree>, parseRecord: string -> Option<OaiRecord>)
    requires BadXml !in msgs
    ensures var c := Loaded(path, content, error, msgs, parsePage, parseRecord);
            |c.records| == 0 ==>
              c.error && NoRecords in c.errorMessages &&
              (c.tree.Some? && c.tree.value.errorMessage.Present? ==>
                 c.errorMessages[|c.errorMessages| - 1] == ElementText(c.tree.value.errorMessage))
    ensures var c := Loaded(path, content, error, msgs, parsePage, parseRecord);
            |c.records| > 0 ==>
              (c.error <==> error || (content.Some? && c.tree.None?)) &&
              (NoRecords !in msgs ==> NoRecords !in c.errorMessages)
    ensures var c := Loaded(path, content, error, msgs, parsePage, parseRecord);
            (content.Some? && c.tree.None? ==> BadXml in c.errorMessages) &&
            (content.None? ==> BadXml !in c.errorMessages)
    ensures var c := Loaded(path, content, error, msgs, parsePage, parseRecord);
            c.tree.Some? && ElementText(c.tree.value.errorMessage) != BadXml ==>
              (TokenOf(c).Some? <==> c.tree.value.resumptionToken.Present? &&
                                     c.tree.value.resumptionToken.text.Some? &&
                                     |c.tree.value.resumptionToken.text.value| > 0)
    ensures var c := Loaded(path, content, error, msgs, parsePage, parseRecord);
            content.Some? && c.tree.None? ==>
              TokenOf(c) == Some(TokenFallback(content.value)) &&
              |c.records| == |RecordsFallback(content.value)|
    ensures var c := Loaded(path, content, error, msgs, parsePage, parseRecord);
            content.None? ==> TokenOf(c).None? && c.records == [] && c.error
  {
    assert BadXml != NoRecords;
  }

  /** The chunk read back from the file at `p` (`None`: no such file). */
  function FileChunk(p: string, file: Option<string>,
                     parsePage: string -> Option<PageTree>, parseRecord: string -> Option<OaiRecord>): ChunkState
  {
    Loaded(p, file, file.None?, if file.None? then ["File not found - " + p] else [], parsePage, parseRecord)
  }

  class Chunk {
    const path: string
    var content: Option<string>
    var tree: Option<PageTree>
    var records: seq<XmlSource>
    var error: bool
    var errorMessages: seq<string>
    /** `__init__` raised while building the records; Python's constructor
      * then returns no chunk, and its callers read this flag instead. */
    var raised: bool

    function State(): ChunkState
      reads this
    {
      ChunkState(path, content, tree, records, error, errorMessages)
    }

    /** `Chunk(oai_set, from_time, to_time, resumption_token)`: fetched from the
      * server, whose tries answer `rs`, and saved under `p`. */
    constructor Fetch(p: string, rs: seq<Response>,
                      parsePage: string -> Option<PageTree>, parseRecord: string -> Option<OaiRecord>)
      ensures State() == Loaded(p, Fetched(rs).content, Fetched(rs).error, Fetched(rs).messages, parsePage, parseRecord)
      ensures raised == BuildRaises(State())
    {
      path := p;
      content := None;
      tree := None;
      records := [];
      error := false;
      errorMessages := [];
      raised := false;
      new;
      var c := FetchData(rs);
      content := c;
      Load(parsePage, parseRecord);
    }

    /** `Chunk(oai_set, file_path=p)`: `file` is the file's text, `None` when
      * it does not exist. */
    constructor FromFile(p: string, file: Option<string>,
                         parsePage: string -> Option<PageTree>, parseRecord: string -> Option<OaiRecord>)
      ensures State() == FileChunk(p, file, parsePage, parseRecord)
      ensures raised == BuildRaises(State())
    {
      path := p;
      content := file;
      tree := None;
      records := [];
      error := false;
      errorMessages := [];
      raised := false;
      new;
      if file.None? {
        errorMessages := errorMessages + ["File not found - " + p];
        error := true;
      }
      Load(parsePage, parseRecord);
    }

    /** `fetch_data`: up to three tries, stopping at the first ok response. */
    method FetchData(rs: seq<Response>) returns (c: Option<string>)
      modifies this
      ensures c == Fetched(rs).content
      ensures error == (old(error) || Fetched(rs).error)
      ensures errorMessages == old(errorMessages) + Fetched(rs).messages
      ensures content == old(content) && tree == old(tree) && records == old(records)
    {
      var tries := 0;
      var r: Option<Response> := None;
      while tries < MaxTries
        invariant 0 <= tries <= MaxTries
        invariant forall j :: 0 <= j < tries ==> !Answer(rs, j).Ok?
        invariant tries == 0 ==> r.None?
        invariant tries > 0 ==> r == (if Answer(rs, tries - 1).Failed? then None else Some(Answer(rs, tries - 1)))
        invariant unchanged(this)
      {
        var answer := Answer(rs, tries);
        tries := tries + 1;
        if answer.Failed? {
          r := None;
        } else {
          r := Some(answer);
          if answer.Ok? {
            break;
          }
        }
      }
      assert tries == Tries(rs);
      if r.Some? && r.value.NotOk? {
        errorMessages := errorMessages + [FetchFailed];
        error := true;
        return None;
      }
      if r.None? {
        errorMessages := errorMessages + [FetchFailed];
        return None;
      }
      return Some(r.value.body);
    }

    /** `parse_xml`. */
    method ParseXml(parsePage: string -> Option<PageTree>) returns (t: Option<PageTree>)
      modifies this
      ensures t == (if content.None? then None else parsePage(content.value))
      ensures error == (old(error) || (content.Some? && t.None?))
      ensures errorMessages == old(errorMessages) + (if content.Some? && t.None? then [BadXml] else [])
      ensures content == old(content) && tree == old(tree) && records == old(records)
    {
      if content.None? {
        return None;
      }
      t := parsePage(content.value);
      if t.None? {
        error := true;
        errorMessages := errorMessages + [BadXml];
      }
    }

    /** The rest of `__init__`: parse, take the records (or raise while
      * building them), flag an empty chunk. */
    method Load(parsePage: string -> Option<PageTree>, parseRecord: string -> Option<OaiRecord>)
      modifies this
      ensures State() == Loaded(path, old(content), old(error), old(errorMessages), parsePage, parseRecord)
      ensures raised == BuildRaises(State())
    {
      var t := ParseXml(parsePage);
      tree := t;
      records := RecordSources(content, tree, parseRecord);
      raised := BuildRaises(State());
      if |records| == 0 {
        errorMessages := errorMessages + [NoRecords];
        error := true;
        if tree.Some? && tree.value.errorMessage.Present? {
          errorMessages := errorMessages + [ElementText(tree.value.errorMessage)];
        }
      }
    }

    /** `get_resumption_token`. */
    function ResumptionToken(): Option<string>
      reads this
    {
      TokenOf(State())
    }
  }

  // ---------------------------------------------------------------
  // OaiSet
  // ---------------------------------------------------------------

  /** `date.strftime("%Y%m%d")`. */
  function DateStamp(d: Date): string
    requires ValidDate(d)
  {
    NatToString(d.year) + ZFill(NatToString(d.month), 2) + ZFill(NatToString(d.day), 2)
  }

  /** The name of the directory a harvest on day `d` writes to. */
  function HarvestDirectoryName(setName: string, d: Date): string
    requires ValidDate(d)
  {
    "OaiSet_" + setName + "_" + DateStamp(d)
  }

  /** `get_harvest_directory` on day `d` (the directory is created there). */
  function HarvestDirectory(setName: string, d: Date): string
    requires ValidDate(d)
  {
    Tools.HarvestRoot + "/" + HarvestDirectoryName(setName, d)
  }

  /** `get_next_chunk_file_name` when the directory already holds `saved` files. */
  function ChunkFileName(setName: string, saved: nat): string
  {
    "chunk_" + setName + "_" + ZFill(NatToString(saved + 1), 5) + ".xml"
  }

  /** The digits of a stamp part read back as the number written. */
  lemma PaddedValue(n: nat, w: nat)
    requires |NatToString(n)| <= w
    ensures |ZFill(NatToString(n), w)| == w && AllDigits(ZFill(NatToString(n), w))
    ensures DecimalValue(ZFill(NatToString(n), w)) == n
  {
    var s := NatToString(n);
    NatToStringValue(n);
    if |s| < w {
      ZeroPrefixValue(w - |s|, s);
    }
  }

  /** The date stamp is eight digits reading back as the date (for four-digit years). */
  lemma DateStampContract(d: Date)
    requires ValidDate(d) && d.year >= 1000
    ensures var s := DateStamp(d);
            |s| == 8 && AllDigits(s) &&
            DecimalValue(s[..4]) == d.year && DecimalValue(s[4..6]) == d.month && DecimalValue(s[6..]) == d.day
  {
    NatToStringLength(d.year);
    NatToStringLength(d.month);
    NatToStringLength(d.day);
    NatToStringValue(d.year);
    PaddedValue(d.month, 2);
    PaddedValue(d.day, 2);
    var y, m, dd := NatToString(d.year), ZFill(NatToString(d.month), 2), ZFill(NatToString(d.day), 2);
    assert |y| == 4 && AllDigits(y) && |m| == 2 && AllDigits(m) && |dd| == 2 && AllDigits(dd);
    StampParts(y, m, dd);
    assert DateStamp(d) == y + m + dd;
  }

  /** The parts of an eight-character stamp built as year, month and day. */
  lemma StampParts(y: string, m: string, dd: string)
    requires |y| == 4 && |m| == 2 && |dd| == 2 && AllDigits(y) && AllDigits(m) && AllDigits(dd)
    ensures var s := y + m + dd;
            |s| == 8 && AllDigits(s) && s[..4] == y && s[4..6] == m && s[6..] == dd
  {
    var s := y + m + dd;
    assert s == y + (m + dd);
    assert (m + dd)[..2] == m;
    forall i | 0 <= i < 8 ensures IsDigit(s[i]) {
      if i < 4 {
        assert s[i] == y[i];
      } else if i < 6 {
        assert s[i] == m[i - 4];
      } else {
        assert s[i] == dd[i - 6];
      }
    }
  }

  /** Every character of a harvest directory name is a word character. */
  lemma DirectoryNameWord(setName: string, d: Date)
    requires ValidDate(d) && AllWord(setName)
    ensures AllWord(HarvestDirectoryName(setName, d))
  {
    NatToStringLength(d.month);
    NatToStringLength(d.day);
    PaddedValue(d.month, 2);
    PaddedValue(d.day, 2);
    var stamp := DateStamp(d);
    assert AllDigits(stamp);
    assert AllWord(stamp);
    assert AllWord("OaiSet_") && AllWord("_");
    WordConcat("OaiSet_", setName);
    WordConcat("OaiSet_" + setName, "_");
    WordConcat("OaiSet_" + setName + "_", stamp);
  }

  /** Word characters joined are word characters. */
  lemma WordConcat(a: string, b: string)
    requires AllWord(a) && AllWord(b)
    ensures AllWord(a + b)
  {
    forall i | 0 <= i < |a + b| ensures IsWord((a + b)[i]) {
      if i >= |a| {
        assert (a + b)[i] == b[i - |a|];
      }
    }
  }

  /** The parts of a name built as `b + m + "_" + t`. */
  lemma NameParts(b: string, m: string, t: string)
    ensures var s := b + m + "_" + t;
            s[..|b|] == b && s[|b|..|s| - |t| - 1] == m && s[|s| - |t| - 1] == '_' && s[|s| - |t|..] == t
  {
    var s := b + m + "_" + t;
    assert s == b + (m + "_" + t);
    assert s[|b|..] == m + "_" + t;
  }

  /** A harvest directory name has the harvest shape and its stamp reads back
    * as the day. */
  lemma DirectoryNameShape(setName: string, d: Date)
    requires ValidDate(d) && d.year >= 1000 && |setName| > 0 && AllWord(setName)
    ensures Tools.DirShape(HarvestDirectoryName(setName, d))
    ensures Tools.StampedDate(HarvestDirectoryName(setName, d)) == d
  {
    var stamp := DateStamp(d);
    DateStampContract(d);
    var name := HarvestDirectoryName(setName, d);
    NameParts("OaiSet_", setName, stamp);
    assert name[..7] == "OaiSet_";
    assert name[7..|name| - 9] == setName;
    assert name[|name| - 8..] == stamp;
  }

  /** A name made of word characters holds no `/`. */
  lemma WordNoSlash(name: string)
    requires AllWord(name)
    ensures forall j :: !OccursAt(name, "/", j)
    ensures !Contains(name, "/")
  {
    forall j ensures !OccursAt(name, "/", j) {
      if 0 <= j < |name| {
        assert name[j..j + 1][0] == name[j];
        assert IsWord(name[j]);
      }
    }
  }

  /** A name made of word characters is its own basename below the root. */
  lemma BasenameBelowRoot(name: string)
    requires AllWord(name)
    ensures Tools.Basename(Tools.HarvestRoot + "/" + name) == name
  {
    var root := Tools.HarvestRoot + "/";
    var path := root + name;
    assert OccursAt(path, "/", |root| - 1) by {
      assert path[|root| - 1..|root|] == "/";
    }
    WordNoSlash(name);
    forall j | |root| <= j ensures !OccursAt(path, "/", j) {
      if j + 1 <= |path| {
        assert path[j..j + 1] == name[j - |root|..j - |root| + 1];
        assert !OccursAt(name, "/", j - |root|);
      }
    }
    var i := RFind(path, "/");
    assert i == |root| - 1;
    assert path[i + 1..] == name;
  }

  /** The directory a harvest writes to is one `update_db` recognises, and
    * its name reads back as the harvest day (for a word-character set name
    * and a four-digit year). */
  lemma HarvestDirectoryRoundTrip(setName: string, d: Date)
    requires ValidDate(d) && d.year >= 1000 && |setName| > 0 && AllWord(setName)
    ensures Tools.DirMatches(HarvestDirectoryName(setName, d))
    ensures Tools.DateFromDirectory(HarvestDirectory(setName, d)) == Some(d)
    ensures Tools.DateFromDirectory(HarvestDirectoryName(setName, d)) == Some(d)
  {
    var name := HarvestDirectoryName(setName, d);
    DirectoryNameShape(setName, d);
    DirectoryNameWord(setName, d);
    WordNoSlash(name);
    BasenameBelowRoot(name);
  }

  /** Chunk file names are the ones `update_db` picks up, numbered from one
    * past the files already saved (while that stays within five digits). */
  lemma ChunkFileNameMatches(setName: string, saved: nat)
    requires |setName| > 0 && AllWord(setName) && saved + 1 < 100000
    ensures Tools.ChunkNameMatches(ChunkFileName(setName, saved))
    ensures var s := ChunkFileName(setName, saved);
            DecimalValue(s[|s| - 9..|s| - 4]) == saved + 1
  {
    var n := saved + 1;
    FiveDigitsAtMost(n);
    PaddedValue(n, 5);
    ChunkNameParts(setName, ZFill(NatToString(n), 5));
  }

  /** `chunk_<set>_<digits>.xml` has the chunk shape, its digits in place. */
  lemma ChunkNameParts(setName: string, digits: string)
    requires |setName| > 0 && AllWord(setName) && |digits| == 5 && AllDigits(digits)
    ensures var s := "chunk_" + setName + "_" + digits + ".xml";
            Tools.ChunkShape(s) && s[|s| - 9..|s| - 4] == digits
  {
    var t := digits + ".xml";
    var s := "chunk_" + setName + "_" + t;
    assert s == "chunk_" + setName + "_" + digits + ".xml";
    NameParts("chunk_", setName, t);
    assert s[..6] == "chunk_";
    assert s[6..|s| - 10] == setName;
    assert s[|s| - 9..] == t;
    assert s[|s| - 9..|s| - 4] == t[..5] == digits;
    assert s[|s| - 4] == t[5] == '.';
    assert s[|s| - 3..] == t[6..] == "xml";
  }

  /** Numbers below 100000 have at most five digits. */
  lemma FiveDigitsAtMost(n: nat)
    requires n < 100000
    ensures |NatToString(n)| <= 5
  {
    if n >= 10 {
      var a := n / 10;
      assert NatToString(n) == NatToString(a) + [DigitChar(n % 10)];
      if a >= 10 {
        var b := a / 10;
        assert NatToString(a) == NatToString(b) + [DigitChar(a % 10)];
        if b >= 10 {
          var c := b / 10;
          assert c < 100;
          assert NatToString(b) == NatToString(c) + [DigitChar(b % 10)];
          NatToStringLength(c);
        }
      }
    }
  }


  /** A chunk that stops the harvest: its fetch failed (or it had no room). */
  predicate Stops(c: ChunkState)
  {
    FetchFailed in c.errorMessages || NoFreeSpace in c.errorMessages
  }

  /** What the harvest needs besides the set: the harvest directory, the
    * dates, the server (its answers to the `k`-th request with the given
    * query) and the parser. */
  datatype Harvest = Harvest(
    directory: string,
    from: Option<string>,
    until: Option<string>,
    server: (nat, seq<Param>) -> seq<Response>,
    parsePage: string -> Option<PageTree>,
    parseRecord: string -> Option<OaiRecord>)

  /** The `k`-th chunk of a harvest, asked for with `token`; `k` files have
    * been saved before it. */
  function ChunkAt(setName: string, h: Harvest, k: nat, token: Option<string>): ChunkState
  {
    var f := Fetched(h.server(k, RequestParams(setName, h.from, h.until, token)));
    Loaded(h.directory + "/" + ChunkFileName(setName, k), f.content, f.error, f.messages, h.parsePage, h.parseRecord)
  }

  /** The token the `k`-th chunk is asked for with. */
  function TokenBefore(yielded: seq<ChunkState>, k: nat): Option<string>
    requires k <= |yielded|
  {
    if k == 0 then None else TokenOf(yielded[k - 1])
  }

  /** The chunk the harvest asks for once `ys` were yielded. */
  function NextAfter(setName: string, h: Harvest, ys: seq<ChunkState>): ChunkState
  {
    ChunkAt(setName, h, |ys|, TokenBefore(ys, |ys|))
  }

  /** Each chunk of `ys` is the one the harvest asks for with the token of
    * the chunk before it, and none of them raised while being built or
    * stopped the harvest. */
  predicate Paged(setName: string, h: Harvest, ys: seq<ChunkState>)
  {
    forall k :: 0 <= k < |ys| ==>
      ys[k] == ChunkAt(setName, h, k, TokenBefore(ys, k)) && !BuildRaises(ys[k]) && !Stops(ys[k])
  }

  lemma PagedExtend(setName: string, h: Harvest, ys: seq<ChunkState>, s: ChunkState)
    requires Paged(setName, h, ys)
    requires s == NextAfter(setName, h, ys) && !BuildRaises(s) && !Stops(s)
    ensures Paged(setName, h, ys + [s])
  {
    var zs := ys + [s];
    forall k | 0 <= k < |zs| ensures zs[k] == ChunkAt(setName, h, k, TokenBefore(zs, k)) && !BuildRaises(zs[k]) && !Stops(zs[k]) {
      TokenBeforeAppend(ys, s, k);
      if k < |ys| {
        assert zs[k] == ys[k];
      } else {
        assert zs[k] == s;
      }
    }
  }

  /** Appending a chunk does not change the token before an earlier one. */
  lemma TokenBeforeAppend(ys: seq<ChunkState>, s: ChunkState, k: nat)
    requires k <= |ys|
    ensures TokenBefore(ys + [s], k) == TokenBefore(ys, k)
  {
    if k > 0 {
      assert (ys + [s])[k - 1] == ys[k - 1];
    }
  }

  /** One step of the paging loop: the chunk asked for next, when it does not
    * stop the harvest, extends the paged sequence and gives the next token. */
  lemma PagesStep(setName: string, h: Harvest, ys: seq<ChunkState>, s: ChunkState)
    requires Paged(setName, h, ys) && forall k :: 0 <= k < |ys| ==> TokenOf(ys[k]).Some?
    requires s == NextAfter(setName, h, ys) && !BuildRaises(s) && !Stops(s)
    ensures Paged(setName, h, ys + [s])
    ensures forall k :: 0 <= k < |ys| ==> TokenOf((ys + [s])[k]).Some?
    ensures TokenBefore(ys + [s], |ys| + 1) == TokenOf(s)
  {
    PagedExtend(setName, h, ys, s);
    assert forall k :: 0 <= k < |ys| ==> (ys + [s])[k] == ys[k];
  }

  /** The harvest ended before the fuel ran out and while the last chunk
    * yielded had a token: building the next chunk raised, or its fetch
    * failed. */
  predicate StoppedEarly(yielded: seq<ChunkState>, fuel: nat)
  {
    |yielded| < fuel && (|yielded| == 0 || TokenOf(yielded[|yielded| - 1]).Some?)
  }

  /** The harvest ended early because building the next chunk raised. */
  predicate RaisedEarly(setName: string, h: Harvest, yielded: seq<ChunkState>, fuel: nat)
  {
    StoppedEarly(yielded, fuel) && BuildRaises(NextAfter(setName, h, yielded))
  }

  /** The harvest ended early on a chunk that was built and stops it. */
  predicate FailedEarly(setName: string, h: Harvest, yielded: seq<ChunkState>, fuel: nat)
  {
    StoppedEarly(yielded, fuel) && !BuildRaises(NextAfter(setName, h, yielded))
  }

  class OaiSet {
    const setName: string
    var error: bool
    var errorMessages: seq<string>

    constructor (name: string)
      ensures setName == name && !error && errorMessages == []
    {
      setName := name;
      error := false;
      errorMessages := [];
    }

    /** The `Chunk` the loop of `get_next_chunk` builds when `saved` chunks
      * were saved before it. */
    method NextChunk(h: Harvest, saved: nat, token: Option<string>) returns (s: ChunkState, raised: bool)
      ensures s == ChunkAt(setName, h, saved, token)
      ensures raised == BuildRaises(s)
    {
      var p := h.directory + "/" + ChunkFileName(setName, saved);
      var c := new Chunk.Fetch(p, h.server(saved, RequestParams(setName, h.from, h.until, token)), h.parsePage, h.parseRecord);
      s, raised := c.State(), c.raised;
    }

    /** The paging loop of `get_next_chunk`, run until building a chunk
      * raises, a chunk stops it, a chunk has no token, or `fuel` chunks were
      * yielded; the chunks come back in the order they were yielded. It
      * changes nothing on the set. */
    method Pages(h: Harvest, fuel: nat) returns (yielded: seq<ChunkState>, stopped: bool, raised: bool)
      ensures |yielded| <= fuel
      ensures Paged(setName, h, yielded)
      ensures forall k :: 0 <= k < |yielded| - 1 ==> TokenOf(yielded[k]).Some?
      ensures raised == RaisedEarly(setName, h, yielded, fuel)
      ensures stopped == FailedEarly(setName, h, yielded, fuel)
      ensures stopped ==> Stops(NextAfter(setName, h, yielded))
    {
      yielded := [];
      var token: Option<string> := None;
      var i := 0;
      while i < fuel
        invariant |yielded| == i <= fuel
        invariant Paged(setName, h, yielded)
        invariant forall k :: 0 <= k < i ==> TokenOf(yielded[k]).Some?
        invariant token == TokenBefore(yielded, i)
      {
        var s, r := NextChunk(h, i, token);
        if r {
          return yielded, false, true;
        }
        if Stops(s) {
          return yielded, true, false;
        }
        token := TokenOf(s);
        PagesStep(setName, h, yielded, s);
        yielded := yielded + [s];
        if token.None? {
          return yielded, false, false;
        }
        i := i + 1;
      }
      stopped, raised := false, false;
    }

    /** `get_next_chunk`: the paging loop, and on a stop the set's flag and
      * message. `seen` is the flag at each yield, which is the flag on entry:
      * it is raised only where the generator ends without yielding. `raised`
      * is the exception of a chunk whose records raise, which leaves the
      * generator with the set's flag untouched. */
    method GetNextChunk(h: Harvest, fuel: nat) returns (yielded: seq<ChunkState>, ghost seen: seq<bool>, raised: bool)
      modifies this
      ensures |seen| == |yielded| && forall k :: 0 <= k < |seen| ==> seen[k] == old(error)
      ensures |yielded| <= fuel
      ensures Paged(setName, h, yielded)
      ensures forall k :: 0 <= k < |yielded| - 1 ==> TokenOf(yielded[k]).Some?
      ensures raised == RaisedEarly(setName, h, yielded, fuel)
      ensures FailedEarly(setName, h, yielded, fuel) ==> Stops(NextAfter(setName, h, yielded))
      ensures error == (old(error) || FailedEarly(setName, h, yielded, fuel))
      ensures errorMessages == old(errorMessages) + (if FailedEarly(setName, h, yielded, fuel) then [FetchFailed] else [])
    {
      var stopped;
      yielded, stopped, raised := Pages(h, fuel);
      var flag := error;
      seen := seq(|yielded|, _ => flag);
      if stopped {
        error := true;
        errorMessages := errorMessages + [FetchFailed];
      }
    }
  }
}
