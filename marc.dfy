/**
 * MARC 21 data as the harvester sees it: the parsed OAI-PMH record (header plus
 * MARC 21 slim record), the JSON document stored in MongoDB, the validators
 * that repair tags, indicators and subfield codes, the classification of a
 * record by resource type and access type, and the construction of a
 * `JsonRecord` from a JSON document.
 */
module Marc {
  import opened Wrappers
  import opened Text

  // ---------------------------------------------------------------
  // The parsed OAI-PMH record
  // ---------------------------------------------------------------

  /** An XML element that may be absent; a present element may have no text. */
  datatype Element = Missing | Present(text: Option<string>)

  /** `<header status=…>` with its identifier and its datestamp, already read as
    * a timestamp (absent when the element is missing). */
  datatype Header = Header(status: Option<string>, identifier: Element, datestamp: Option<int>)

  datatype ControlField = ControlField(tag: Option<string>, text: Option<string>)

  datatype Subfield = Subfield(code: Option<string>, text: Option<string>)

  datatype DataField = DataField(tag: Option<string>, ind1: Option<string>, ind2: Option<string>,
                                 subfields: seq<Subfield>)

  /** `<marc:record>`: leader, control fields and data fields in document order. */
  datatype MarcXml = MarcXml(leader: Element, controlFields: seq<ControlField>, dataFields: seq<DataField>)

  datatype OaiRecord = OaiRecord(header: Option<Header>, metadata: Option<MarcXml>)

  /** Section 2.5.1 of OAI-PMH v2.0: a header with status "deleted" marks a deleted record. */
  predicate IsDeleted(x: OaiRecord)
  {
    x.header.Some? && x.header.value.status == Some("deleted")
  }

  // ---------------------------------------------------------------
  // The JSON document
  // ---------------------------------------------------------------

  /** One `{code: text}` entry of a data field's `sub` list. */
  datatype SubJson = SubJson(code: string, text: string)

  datatype FieldJson = FieldJson(ind1: string, ind2: string, sub: seq<SubJson>)

  /** A value of the `marc` dictionary: the text of the leader or of a control
    * field, or the list of data fields carrying that tag. */
  datatype MarcEntry = Control(text: Option<string>) | Fields(fields: seq<FieldJson>)

  type MarcMap = map<string, MarcEntry>

  /** The keys of a record document; a key that may be absent is an `Option`. */
  datatype JsonData = JsonData(
    mmsId: string,
    pDate: int,
    marc: Option<MarcMap>,
    deleted: Option<bool>,
    sup: Option<bool>,
    cDate: Option<string>,
    uDate: Option<string>,
    format: Option<string>,
    access: Option<string>,
    dataError: Option<bool>,
    dataErrorMessages: Option<seq<string>>)

  // ---------------------------------------------------------------
  // Validators
  // ---------------------------------------------------------------

  const Error: string := "ERROR"

  predicate ThreeDigits(s: string) { |s| == 3 && AllDigits(s) }

  /** `re.match(r'^[0-9]{3}$', s)`: the `$` also accepts one final newline. */
  predicate TagMatches(s: string)
  {
    ThreeDigits(s) || (EndsWithNewline(s) && ThreeDigits(Chomp(s)))
  }

  predicate OneIndicatorChar(s: string) { |s| == 1 && (IsAlnum(s[0]) || IsSpace(s[0])) }

  /** `re.match(r'^[a-zA-Z0-9\s]$', s)` */
  predicate IndicatorMatches(s: string)
  {
    OneIndicatorChar(s) || (EndsWithNewline(s) && OneIndicatorChar(Chomp(s)))
  }

  predicate CodeShape(s: string)
  {
    (|s| == 1 && IsAlnum(s[0])) || (|s| == 2 && s[0] == 'n' && IsDigit(s[1]))
  }

  /** `re.match(r'^(?:[a-zA-Z0-9]|n\d)$', s)` */
  predicate CodeMatches(s: string)
  {
    CodeShape(s) || (EndsWithNewline(s) && CodeShape(Chomp(s)))
  }

  predicate OneDigit(s: string) { |s| == 1 && IsDigit(s[0]) }

  /** `re.match(r'^\d$', s)` */
  predicate DigitMatches(s: string)
  {
    OneDigit(s) || (EndsWithNewline(s) && OneDigit(Chomp(s)))
  }

  predicate ValidTag(tag: Option<string>) { tag.Some? && TagMatches(tag.value) }

  predicate ValidIndicator(ind: Option<string>) { ind.Some? && IndicatorMatches(ind.value) }

  predicate ValidCode(code: Option<string>) { code.Some? && CodeMatches(code.value) }

  /** The value `clean_f_tag` returns. */
  function CleanTag(tag: Option<string>): (r: string)
  {
    if ValidTag(tag) then tag.value else Error
  }

  /** The data-error messages `clean_f_tag` appends. */
  function TagIssues(tag: Option<string>): seq<string>
  {
    if tag.None? then ["Tag is None"]
    else if !TagMatches(tag.value) then ["invalid tag: " + tag.value]
    else []
  }

  /** The value `clean_f_indicator` returns. */
  function CleanIndicator(ind: Option<string>): (r: string)
  {
    if ValidIndicator(ind) then ind.value else Error
  }

  /** The data-error messages `clean_f_indicator` appends. */
  function IndicatorIssues(ind: Option<string>, tag: string): seq<string>
  {
    if ind.None? then ["indicator is None (tag " + tag + ")"]
    else if !IndicatorMatches(ind.value) then ["invalid indicator: " + ind.value + " (tag " + tag + ")"]
    else []
  }

  /** The value `clean_subf_code` returns: a lone digit gets an "n" in front. */
  function CleanCode(code: Option<string>): (r: string)
  {
    if !ValidCode(code) then Error
    else if DigitMatches(code.value) then "n" + code.value
    else code.value
  }

  /** The data-error messages `clean_subf_code` appends. */
  function CodeIssues(code: Option<string>, tag: string): seq<string>
  {
    if code.None? then ["Code is None"]
    else if !CodeMatches(code.value) then ["invalid code: " + code.value + " (tag " + tag + ")"]
    else []
  }

  lemma ErrorIsNoTag()
    ensures !TagMatches(Error) && !IndicatorMatches(Error) && !CodeMatches(Error)
  {
    assert Error[0] == 'E';
  }

  /** `clean_f_tag` keeps a three-digit tag (optionally followed by one newline)
    * and yields "ERROR" with exactly one message for anything else, `None`
    * included; it is a fixed point of a second call, which nevertheless logs
    * "ERROR" again. */
  lemma CleanTagContract(tag: Option<string>)
    ensures ValidTag(tag) <==> (tag.Some? && (ThreeDigits(tag.value) ||
              (|tag.value| == 4 && ThreeDigits(tag.value[..3]) && tag.value[3] == '\n')))
    ensures ValidTag(tag) ==> CleanTag(tag) == tag.value && TagIssues(tag) == []
    ensures !ValidTag(tag) ==> CleanTag(tag) == Error && |TagIssues(tag)| == 1
    ensures CleanTag(Some(CleanTag(tag))) == CleanTag(tag)
    ensures !ValidTag(tag) ==> |TagIssues(Some(CleanTag(tag)))| == 1
  {
    ErrorIsNoTag();
    if tag.Some? && EndsWithNewline(tag.value) {
      assert Chomp(tag.value) == tag.value[..|tag.value| - 1];
    }
  }

  /** `clean_f_indicator` keeps one letter, digit or whitespace character
    * (optionally followed by one newline) and yields "ERROR" with exactly one
    * message otherwise; it is a fixed point of a second call. */
  lemma CleanIndicatorContract(ind: Option<string>, tag: string)
    ensures ValidIndicator(ind) ==> CleanIndicator(ind) == ind.value && IndicatorIssues(ind, tag) == []
    ensures !ValidIndicator(ind) ==> CleanIndicator(ind) == Error && |IndicatorIssues(ind, tag)| == 1
    ensures ValidIndicator(Some(" ")) && ValidIndicator(Some("\n\n")) && !ValidIndicator(Some("ab"))
    ensures CleanIndicator(Some(CleanIndicator(ind))) == CleanIndicator(ind)
  {
    ErrorIsNoTag();
    assert Chomp("\n\n") == "\n";
    assert OneIndicatorChar("\n");
    assert !EndsWithNewline("ab");
  }

  /** `clean_subf_code` turns a lone digit d into "n" + d, keeps a letter or
    * "n" + digit, and yields "ERROR" with one message for anything else; its
    * result is a fixed point of a second call. */
  lemma {:induction false} CleanCodeContract(code: Option<string>, tag: string)
    ensures code.Some? && OneDigit(code.value) ==> CleanCode(code) == "n" + code.value
    ensures code.Some? && |code.value| == 1 && IsLetter(code.value[0]) ==> CleanCode(code) == code.value
    ensures code.Some? && CodeShape(code.value) && |code.value| == 2 ==> CleanCode(code) == code.value
    ensures !ValidCode(code) <==> CleanCode(code) == Error
    ensures !ValidCode(code) ==> |CodeIssues(code, tag)| == 1
    ensures ValidCode(code) ==> CodeIssues(code, tag) == []
    ensures CleanCode(Some(CleanCode(code))) == CleanCode(code)
  {
    ErrorIsNoTag();
    if code.Some? {
      var s := code.value;
      if ValidCode(code) && DigitMatches(s) {
        var r := "n" + s;
        if OneDigit(s) {
          assert CodeShape(r);
          assert !DigitMatches(r);
        } else {
          assert Chomp(r) == "n" + Chomp(s);
          assert CodeShape(Chomp(r));
          assert !OneDigit(r);
          assert !OneDigit(Chomp(r));
        }
        assert r != Error;
      }
      if ValidCode(code) && !DigitMatches(s) {
        assert s != Error;
      }
    }
  }

  // ---------------------------------------------------------------
  // Classification
  // ---------------------------------------------------------------

  const LeaderMissing: string := "Leader field not found"
  const F008Missing: string := "008 field not found"

  /** The text stored under `key` in the `marc` dictionary, if it is a string. */
  function TextAt(marc: MarcMap, key: string): Option<string>
  {
    if key in marc && marc[key].Control? then marc[key].text else None
  }

  /** The data fields stored under `key` (`marc.get(key, [])`). */
  function FieldsAt(marc: MarcMap, key: string): seq<FieldJson>
  {
    if key in marc && marc[key].Fields? then marc[key].fields else []
  }

  predicate LeaderUsable(marc: MarcMap)
  {
    TextAt(marc, "leader").Some? && |TextAt(marc, "leader").value| >= 10
  }

  /** The message `get_bib_resource_type` records, when it cannot classify:
    * the leader needs 10 characters and field 008 needs 22. */
  function FormatIssue(marc: MarcMap): Option<string>
  {
    if !LeaderUsable(marc) then Some(LeaderMissing)
    else if TextAt(marc, "008").None? || |TextAt(marc, "008").value| < 22 then Some(F008Missing)
    else None
  }

  /** The message `get_access_type` records: as above, but 008 needs 23 characters. */
  function AccessIssue(marc: MarcMap): Option<string>
  {
    if !LeaderUsable(marc) then Some(LeaderMissing)
    else if TextAt(marc, "008").None? || |TextAt(marc, "008").value| < 23 then Some(F008Missing)
    else None
  }

  /** The leader/06-07 table, with 008/21 telling journals from series. */
  function ResourceType(pos6: char, pos7: char, f008pos21: char): string
  {
    if pos6 == 'a' then
      if pos7 in "acdm" then "Book"
      else if pos7 in "bis" then (if f008pos21 in "pn" then "Journal" else "Series")
      else "Other"
    else if pos6 == 'c' then "Notated Music"
    else if pos6 in "ij" then "Audio"
    else if pos6 in "ef" then "Map"
    else if pos6 in "dt" then "Manuscript"
    else if pos6 == 'k' then "Image"
    else if pos6 in "ro" then "Object"
    else if pos6 == 'g' then "Video"
    else if pos6 == 'p' then "Mixed Material"
    else "Other"
  }

  /** The value `get_bib_resource_type` returns. */
  function BibResourceType(marc: MarcMap): string
  {
    if FormatIssue(marc).Some? then Error
    else
      var leader := TextAt(marc, "leader").value;
      ResourceType(leader[6], leader[7], TextAt(marc, "008").value[21])
  }

  /** The 008 position that carries the form of item: 29 for maps and visual
    * material (leader/06 in e, g, k, o, r), 23 otherwise. */
  function FormPos(leader6: char): nat
  {
    if leader6 in "egkor" then 29 else 23
  }

  /** Some `$b` of the data fields under `tag` satisfies `p`. */
  predicate AnySubfieldB(marc: MarcMap, tag: string, p: string -> bool)
  {
    exists f, s :: f in FieldsAt(marc, tag) && s in f.sub && s.code == "b" && p(s.text)
  }

  /** 008 at the form-of-item position is one of `codes`; false when 008 is too short. */
  predicate FormOfItemIn(marc: MarcMap, codes: string)
    requires AccessIssue(marc).None?
  {
    var f008 := TextAt(marc, "008").value;
    var pos := FormPos(TextAt(marc, "leader").value[6]);
    |f008| > pos && f008[pos] in codes
  }

  /** `is_micro`: a 338 $b beginning with "h", or form of item a, b or c. */
  predicate IsMicro(marc: MarcMap)
    requires AccessIssue(marc).None?
  {
    AnySubfieldB(marc, "338", t => StartsWith(t, "h")) || FormOfItemIn(marc, "abc")
  }

  /** `is_online`: a 338 $b equal to "cr", or form of item o, q or s. */
  predicate IsOnline(marc: MarcMap)
    requires AccessIssue(marc).None?
  {
    AnySubfieldB(marc, "338", t => t == "cr") || FormOfItemIn(marc, "oqs")
  }

  /** `is_braille`: a 336 $b beginning with "tct", or form of item f. */
  predicate IsBraille(marc: MarcMap)
    requires AccessIssue(marc).None?
  {
    AnySubfieldB(marc, "336", t => StartsWith(t, "tct")) || FormOfItemIn(marc, "f")
  }

  /** The entry under `tag` makes the loop `for datafield in ...:` over
    * `datafield['sub']` raise `TypeError`: `None` cannot be iterated, and a
    * character of a control field's text cannot be indexed by `'sub'`. */
  predicate LoopRaises(marc: MarcMap, tag: string)
  {
    tag in marc && marc[tag].Control? && (marc[tag].text.None? || |marc[tag].text.value| > 0)
  }

  /** `get_access_type` raises instead of answering: `is_micro` reads 338
    * first, and `is_braille`, reached only when neither `is_micro` nor
    * `is_online` holds, reads 336. */
  predicate AccessRaises(marc: MarcMap)
  {
    AccessIssue(marc).None? &&
    (LoopRaises(marc, "338") || (!IsMicro(marc) && !IsOnline(marc) && LoopRaises(marc, "336")))
  }

  /** The value `get_access_type` returns when it does not raise. */
  function AccessType(marc: MarcMap): string
  {
    if AccessIssue(marc).Some? then Error
    else if IsMicro(marc) then "M"
    else if IsOnline(marc) then "O"
    else if IsBraille(marc) then "B"
    else "P"
  }

  /** The leader/06-07 table of `get_bib_resource_type`, read label by label;
    * 'a' with any other leader/07 falls through to "Other". */
  lemma ResourceTypeTable(p6: char, p7: char, c21: char)
    ensures ResourceType(p6, p7, c21) == "Book" <==> p6 == 'a' && p7 in "acdm"
    ensures ResourceType(p6, p7, c21) == "Journal" <==> p6 == 'a' && p7 in "bis" && c21 in "pn"
    ensures ResourceType(p6, p7, c21) == "Series" <==> p6 == 'a' && p7 in "bis" && c21 !in "pn"
    ensures ResourceType(p6, p7, c21) == "Notated Music" <==> p6 == 'c'
    ensures ResourceType(p6, p7, c21) == "Audio" <==> p6 in "ij"
    ensures ResourceType(p6, p7, c21) == "Map" <==> p6 in "ef"
    ensures ResourceType(p6, p7, c21) == "Manuscript" <==> p6 in "dt"
    ensures ResourceType(p6, p7, c21) == "Image" <==> p6 == 'k'
    ensures ResourceType(p6, p7, c21) == "Object" <==> p6 in "ro"
    ensures ResourceType(p6, p7, c21) == "Video" <==> p6 == 'g'
    ensures ResourceType(p6, p7, c21) == "Mixed Material" <==> p6 == 'p'
    ensures ResourceType(p6, p7, c21) == "Other" <==>
              (p6 == 'a' && p7 !in "acdmbis") || p6 !in "acijefdtkrogp"
  {
  }

  /** A record is classified only from leader/06, leader/07 and 008/21 once the
    * leader and 008 are long enough; with a short leader or a short 008 the
    * format is "ERROR" and the matching message is recorded. */
  lemma BibResourceTypeContract(marc: MarcMap)
    ensures FormatIssue(marc).Some? <==> BibResourceType(marc) == Error
    ensures !LeaderUsable(marc) ==> FormatIssue(marc) == Some(LeaderMissing)
    ensures LeaderUsable(marc) && (TextAt(marc, "008").None? || |TextAt(marc, "008").value| < 22) ==>
              FormatIssue(marc) == Some(F008Missing)
    ensures FormatIssue(marc).None? ==>
              var l := TextAt(marc, "leader").value;
              BibResourceType(marc) == ResourceType(l[6], l[7], TextAt(marc, "008").value[21])
  {
    if FormatIssue(marc).None? {
      var l := TextAt(marc, "leader").value;
      ResourceTypeTable(l[6], l[7], TextAt(marc, "008").value[21]);
    }
  }

  /** `get_access_type` answers "ERROR" exactly when it cannot read leader/06 and
    * 008/23; otherwise micro wins over online, online over Braille, and "P" is
    * the default. An 008 of exactly 22 characters is a valid format but an
    * access error. */
  lemma AccessTypeContract(marc: MarcMap)
    ensures AccessType(marc) == Error <==> AccessIssue(marc).Some?
    ensures AccessIssue(marc).None? ==>
              (AccessType(marc) == "M" <==> IsMicro(marc)) &&
              (AccessType(marc) == "O" <==> !IsMicro(marc) && IsOnline(marc)) &&
              (AccessType(marc) == "B" <==> !IsMicro(marc) && !IsOnline(marc) && IsBraille(marc)) &&
              (AccessType(marc) == "P" <==> !IsMicro(marc) && !IsOnline(marc) && !IsBraille(marc))
    ensures FormatIssue(marc).Some? ==> AccessIssue(marc) == FormatIssue(marc)
    ensures FormatIssue(marc).None? && AccessIssue(marc).Some? ==>
              AccessIssue(marc) == Some(F008Missing) && |TextAt(marc, "008").value| == 22
  {
  }

  /** `get_access_type` raises only past its two error returns, and only on a
    * control field's text (or `None`) stored under 338 or 336; one under 338
    * always raises, one under 336 raises exactly when neither micro nor
    * online holds, before 008 is read for Braille. */
  lemma AccessRaisesContract(marc: MarcMap)
    ensures AccessRaises(marc) ==> AccessIssue(marc).None? && (LoopRaises(marc, "338") || LoopRaises(marc, "336"))
    ensures AccessIssue(marc).None? && LoopRaises(marc, "338") ==> AccessRaises(marc)
    ensures AccessIssue(marc).None? && !LoopRaises(marc, "338") && LoopRaises(marc, "336") ==>
              (AccessRaises(marc) <==> AccessType(marc) == "B" || AccessType(marc) == "P")
    ensures ("338" !in marc || marc["338"].Fields?) && ("336" !in marc || marc["336"].Fields?) ==> !AccessRaises(marc)
  {
    if AccessIssue(marc).None? && !LoopRaises(marc, "338") && LoopRaises(marc, "336") {
      AccessTypeContract(marc);
    }
  }

  /** The fixed 008 positions examined for access: 23 for books, music and
    * serials, 29 for maps and visual material; a 338 $b of "cr" makes a record
    * online whatever 008 says. */
  lemma OnlineBy338(marc: MarcMap, f: FieldJson)
    requires AccessIssue(marc).None?
    requires f in FieldsAt(marc, "338") && SubJson("b", "cr") in f.sub
    ensures IsOnline(marc)
    ensures AccessType(marc) == "O" || AccessType(marc) == "M"
  {
    var p := (t: string) => t == "cr";
    assert SubJson("b", "cr").code == "b" && p(SubJson("b", "cr").text);
  }

  // ---------------------------------------------------------------
  // JsonRecord
  // ---------------------------------------------------------------

  /** A `JsonRecord` object: its document and the attributes set by its constructor. */
  datatype JsonRecord = JsonRecord(data: JsonData, deleted: bool, dataError: bool,
                                   dataErrorMessages: seq<string>)

  /** The messages classification leaves in a fresh record: the format message
    * always, the access message only when it is not already there. */
  function ClassificationMessages(marc: MarcMap): (r: seq<string>)
  {
    var m1 := if FormatIssue(marc).Some? then [FormatIssue(marc).value] else [];
    if AccessIssue(marc).Some? && AccessIssue(marc).value !in m1 then m1 + [AccessIssue(marc).value]
    else m1
  }

  /** The document after the constructor has stored `format` and `access`. */
  function Classified(d: JsonData): JsonData
    requires d.marc.Some?
  {
    var marc := d.marc.value;
    var msgs := ClassificationMessages(marc);
    var d1 := d.(format := Some(BibResourceType(marc)), access := Some(AccessType(marc)));
    if |msgs| > 0 then d1.(dataError := Some(true), dataErrorMessages := Some(msgs)) else d1
  }

  /** `JsonRecord(data, data_error_messages)`: a document with `marc` that is
    * not deleted is classified; messages handed in are appended and flag a data
    * error; otherwise the flag and messages come from the document. */
  function NewJsonRecord(d: JsonData, extra: seq<string>): JsonRecord
  {
    var deleted := d.deleted.GetOr(false);
    var classify := d.marc.Some? && !deleted;
    var d1 := if classify then Classified(d) else d;
    var own := if classify then ClassificationMessages(d.marc.value) else [];
    if |extra| > 0 then
      var msgs := own + extra;
      JsonRecord(d1.(dataError := Some(true), dataErrorMessages := Some(msgs)), deleted, true, msgs)
    else
      JsonRecord(d1, deleted, d1.dataError.GetOr(false), d1.dataErrorMessages.GetOr([]))
  }

  /** The constructor raises out of `get_access_type`: only a live record
    * with `marc` is classified. `NewJsonRecord` is its result otherwise. */
  predicate NewJsonRecordRaises(d: JsonData)
  {
    d.marc.Some? && !d.deleted.GetOr(false) && AccessRaises(d.marc.value)
  }

  /** What the constructor promises: the document keeps its identity; a live
    * record with `marc` gets `format` and `access`; a deleted record or an
    * archive document is left unclassified; the data-error flag is raised by
    * handed-in messages or by classification, and classification never records
    * the same message twice. */
  lemma NewJsonRecordContract(d: JsonData, extra: seq<string>)
    ensures NewJsonRecord(d, extra).data.mmsId == d.mmsId
    ensures NewJsonRecord(d, extra).data.pDate == d.pDate
    ensures NewJsonRecord(d, extra).data.marc == d.marc
    ensures NewJsonRecord(d, extra).deleted == d.deleted.GetOr(false)
    ensures NewJsonRecord(d, extra).data.deleted == d.deleted
    ensures d.marc.Some? && !d.deleted.GetOr(false) ==>
              NewJsonRecord(d, extra).data.format == Some(BibResourceType(d.marc.value)) &&
              NewJsonRecord(d, extra).data.access == Some(AccessType(d.marc.value))
    ensures d.marc.None? || d.deleted.GetOr(false) ==>
              NewJsonRecord(d, extra).data.format == d.format &&
              NewJsonRecord(d, extra).data.access == d.access
    ensures |extra| > 0 ==> NewJsonRecord(d, extra).dataError
    ensures |extra| > 0 ==> NewJsonRecord(d, extra).dataErrorMessages[|NewJsonRecord(d, extra).dataErrorMessages| - |extra|..] == extra
    ensures d.marc.Some? && !d.deleted.GetOr(false) && AccessIssue(d.marc.value).Some? ==>
              NewJsonRecord(d, extra).dataError
    ensures d.marc.Some? && !d.deleted.GetOr(false) && AccessIssue(d.marc.value).Some? && |extra| == 0 ==>
              NewJsonRecord(d, extra).dataErrorMessages == [AccessIssue(d.marc.value).value]
    ensures NewJsonRecord(d, extra).data.dataError == Some(NewJsonRecord(d, extra).dataError) ||
              (NewJsonRecord(d, extra).data.dataError.None? && !NewJsonRecord(d, extra).dataError)
  {
    if d.marc.Some? && !d.deleted.GetOr(false) {
      var marc := d.marc.value;
      if AccessIssue(marc).Some? && FormatIssue(marc).Some? {
        assert AccessIssue(marc) == FormatIssue(marc);
        assert ClassificationMessages(marc) == [FormatIssue(marc).value];
      }
    }
  }

  /** `JsonRecord.__eq__`: same MMS id and same datestamp. */
  predicate SameVersion(a: JsonRecord, b: JsonRecord)
  {
    a.data.mmsId == b.data.mmsId && a.data.pDate == b.data.pDate
  }
}
