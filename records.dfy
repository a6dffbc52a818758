/**
 * `XmlRecord`: one OAI-PMH record as harvested, its MMS id, and its conversion
 * into the JSON document stored in MongoDB (`to_json`). The `clean_*`
 * validators update the record's data-error flag and message list in place.
 */
module Records {
  import opened Wrappers
  import opened Text
  import opened Marc

  // ---------------------------------------------------------------
  // Where the record comes from
  // ---------------------------------------------------------------

  /** The data an `XmlRecord` is built from: a parsed element, or text that
    * failed to parse. */
  datatype XmlSource = Parsed(tree: OaiRecord) | Unparsable(text: string)

  /** Start of the run of digits that ends at index `i` (exclusive). */
  function DigitRunStart(s: string, i: nat): (j: nat)
    requires i <= |s|
    ensures j <= i && AllDigits(s[j..i])
    ensures j > 0 ==> !IsDigit(s[j - 1])
  {
    if i == 0 || !IsDigit(s[i - 1]) then i
    else
      var j := DigitRunStart(s, i - 1);
      assert s[j..i] == s[j..i - 1] + [s[i - 1]];
      j
  }

  /** `re.search(r'(?<=:)(\d+)$', s).group(1)`: the digits ending the string (or
    * ending it before one final newline) when a colon precedes them. */
  function IdentifierNumber(s: string): (r: Option<string>)
    ensures r.Some? ==> |r.value| >= 1 && AllDigits(r.value)
    ensures r.Some? ==> exists p :: (0 < p <= |s| && s[p - 1] == ':' &&
                                     (s[p..] == r.value || s[p..] == r.value + "\n"))
  {
    var u := if EndsWithNewline(s) then Chomp(s) else s;
    var j := DigitRunStart(u, |u|);
    if j < |u| && j > 0 && u[j - 1] == ':' then
      assert u[j..] == u[j..|u|];
      assert u == s[..|u|];
      assert s[j - 1] == ':';
      assert s[j..] == u[j..] || s[j..] == u[j..] + "\n";
      Some(u[j..])
    else None
  }

  const Open001: string := "<controlfield tag=\"001\">"
  const CloseControl: string := "</controlfield>"

  /** End of the run of digits starting at `i`. */
  function DigitRunEnd(s: string, i: nat): (e: nat)
    requires i <= |s|
    ensures i <= e <= |s| && AllDigits(s[i..e])
    ensures e < |s| ==> !IsDigit(s[e])
    decreases |s| - i
  {
    if i == |s| || !IsDigit(s[i]) then i
    else
      var e := DigitRunEnd(s, i + 1);
      assert s[i..e] == [s[i]] + s[i + 1..e];
      e
  }

  /** The id `<controlfield tag="001">(99\d+)</controlfield>` captures at index `p`. */
  function TextIdAt(s: string, p: nat): Option<string>
    requires p <= |s|
  {
    var q := p + |Open001|;
    if OccursAt(s, Open001, p) && OccursAt(s, "99", q) then
      var e := DigitRunEnd(s, q + 2);
      if e > q + 2 && OccursAt(s, CloseControl, e) then Some(s[q..e]) else None
    else None
  }

  /** `re.search(r'<controlfield tag="001">(99\d+)</controlfield>', s)`: the
    * leftmost capture, searching from index `p`. */
  function TextMmsId(s: string, p: nat := 0): (r: Option<string>)
    requires p <= |s|
    ensures r.Some? ==> |r.value| >= 3 && r.value[..2] == "99" && AllDigits(r.value)
    decreases |s| - p
  {
    var here := TextIdAt(s, p);
    if here.Some? then here
    else if p == |s| then None
    else TextMmsId(s, p + 1)
  }

  /** Where `_get_mms_id` ends up. */
  datatype MmsIdLookup = Found(id: Option<string>) | NotFound | Raises

  /** The first control field whose `tag` attribute is exactly `tag`. */
  function FirstControl(cfs: seq<ControlField>, tag: string): (r: Option<ControlField>)
    ensures r.Some? ==> r.value in cfs && r.value.tag == Some(tag)
    ensures r.None? ==> forall c :: c in cfs ==> c.tag != Some(tag)
  {
    if |cfs| == 0 then None
    else if cfs[0].tag == Some(tag) then Some(cfs[0])
    else FirstControl(cfs[1..], tag)
  }

  /** `_get_mms_id`: a deleted record takes the number ending its OAI identifier
    * (a missing identifier element makes Python raise); a live record takes the
    * text of control field 001, which may be `None`; unparsable text is searched
    * for a 001 starting with 99. */
  function LookupMmsId(src: XmlSource): MmsIdLookup
  {
    match src
    case Unparsable(text) =>
      if TextMmsId(text).Some? then Found(TextMmsId(text)) else NotFound
    case Parsed(x) =>
      if IsDeleted(x) then
        match x.header.value.identifier
        case Missing => Raises
        case Present(t) =>
          if t.Some? && IdentifierNumber(t.value).Some? then Found(IdentifierNumber(t.value))
          else NotFound
      else if x.metadata.None? then NotFound
      else
        var c := FirstControl(x.metadata.value.controlFields, "001");
        if c.Some? then Found(c.value.text) else NotFound
  }

  /** No record source makes the `XmlRecord` constructor raise. */
  predicate NoneRaise(srcs: seq<XmlSource>)
  {
    forall k :: 0 <= k < |srcs| ==> LookupMmsId(srcs[k]) != Raises
  }

  /** A deleted record's id is the run of digits after the colon ending its
    * identifier's prefix, such as `oai:alma.41SLSP_NETWORK:` in Alma. */
  lemma DeletedRecordId(x: OaiRecord, prefix: string, number: string)
    requires IsDeleted(x) && x.header.value.identifier == Present(Some(prefix + number))
    requires |prefix| > 0 && prefix[|prefix| - 1] == ':' && |number| > 0 && AllDigits(number)
    ensures LookupMmsId(Parsed(x)) == Found(Some(number))
  {
    IdentifierNumberOf(prefix, number);
  }

  /** The number `_get_mms_id` reads from an identifier that ends in a colon
    * followed by digits is exactly those digits. */
  lemma IdentifierNumberOf(prefix: string, number: string)
    requires |prefix| > 0 && prefix[|prefix| - 1] == ':' && |number| > 0 && AllDigits(number)
    ensures IdentifierNumber(prefix + number) == Some(number)
  {
    var s := prefix + number;
    var k := |prefix|;
    assert s[|s| - 1] == number[|number| - 1];
    assert !EndsWithNewline(s);
    assert s[k - 1] == ':' && !IsDigit(s[k - 1]);
    assert s[k..] == number;
    DigitRunStartIs(s, k);
  }

  lemma DigitRunStartIs(s: string, k: nat)
    requires 0 < k <= |s| && !IsDigit(s[k - 1]) && AllDigits(s[k..])
    ensures DigitRunStart(s, |s|) == k
  {
    DigitRunStartDown(s, k, |s|);
  }

  lemma {:induction false} DigitRunStartDown(s: string, k: nat, i: nat)
    requires 0 < k <= i <= |s| && !IsDigit(s[k - 1]) && AllDigits(s[k..i])
    ensures DigitRunStart(s, i) == k
    decreases i
  {
    if i > k {
      assert IsDigit(s[i - 1]) by {
        assert s[i - 1] == s[k..i][i - 1 - k];
      }
      var t := s[k..i - 1];
      assert AllDigits(t) by {
        forall m | 0 <= m < |t| ensures IsDigit(t[m]) {
          assert t[m] == s[k..i][m];
        }
      }
      DigitRunStartDown(s, k, i - 1);
      assert DigitRunStart(s, i) == DigitRunStart(s, i - 1);
    }
  }

  // ---------------------------------------------------------------
  // to_json, as a specification
  // ---------------------------------------------------------------

  /** The `{code: text}` entries of a data field: subfields without text are dropped. */
  function SubsOf(subs: seq<Subfield>): seq<SubJson>
  {
    if |subs| == 0 then []
    else
      var s := subs[|subs| - 1];
      SubsOf(subs[..|subs| - 1]) + (if s.text.Some? then [SubJson(CleanCode(s.code), s.text.value)] else [])
  }

  /** The messages the codes of the kept subfields add. */
  function SubIssues(subs: seq<Subfield>, tag: string): seq<string>
  {
    if |subs| == 0 then []
    else
      var s := subs[|subs| - 1];
      SubIssues(subs[..|subs| - 1], tag) + (if s.text.Some? then CodeIssues(s.code, tag) else [])
  }

  function FieldOf(df: DataField): FieldJson
  {
    FieldJson(CleanIndicator(df.ind1), CleanIndicator(df.ind2), SubsOf(df.subfields))
  }

  /** The first subfield whose `code` attribute is exactly `code`. */
  function FirstWithCode(subs: seq<Subfield>, code: string): (r: Option<Subfield>)
    ensures r.Some? ==> r.value in subs && r.value.code == Some(code)
    ensures r.None? ==> forall s :: s in subs ==> s.code != Some(code)
  {
    if |subs| == 0 then None
    else if subs[0].code == Some(code) then Some(subs[0])
    else FirstWithCode(subs[1..], code)
  }

  predicate IsAdminDateChar(c: char) { IsDigit(c) || c == '-' || c == ':' || IsSpace(c) }

  /** Length of the leading run of characters of `[\d\-:\s]` from `i`. */
  function AdminRunEnd(t: string, i: nat): (e: nat)
    requires i <= |t|
    ensures i <= e <= |t|
    ensures forall k :: i <= k < e ==> IsAdminDateChar(t[k])
    ensures e < |t| ==> !IsAdminDateChar(t[e])
    decreases |t| - i
  {
    if i == |t| || !IsAdminDateChar(t[i]) then i else AdminRunEnd(t, i + 1)
  }

  /** Backtracking of `\s\D` after the greedy `[\d\-:\s]+`, from length `k` down. */
  function AdminDateFrom(t: string, k: nat): (r: Option<string>)
    requires k <= |t|
    ensures r.Some? ==> 1 <= |r.value| <= k && r.value == t[..|r.value|]
    ensures r.Some? ==> |r.value| + 1 < |t| && IsSpace(t[|r.value|]) && !IsDigit(t[|r.value| + 1])
    ensures forall j :: (if r.Some? then |r.value| else 0) < j <= k ==>
              !(j + 1 < |t| && IsSpace(t[j]) && !IsDigit(t[j + 1]))
  {
    if k == 0 then None
    else if k + 1 < |t| && IsSpace(t[k]) && !IsDigit(t[k + 1]) then Some(t[..k])
    else AdminDateFrom(t, k - 1)
  }

  /** `re.match(r'([\d\-:\s]+)\s\D', t).group(1)`: the longest prefix of date
    * characters followed by a whitespace and a non-digit. */
  function AdminDate(t: string): (r: Option<string>)
    ensures r.Some? ==> |r.value| >= 1 && forall k :: 0 <= k < |r.value| ==> IsAdminDateChar(r.value[k])
    ensures r.Some? ==> exists rest :: t == r.value + rest && |rest| >= 2 && IsSpace(rest[0]) && !IsDigit(rest[1])
  {
    var r := AdminDateFrom(t, AdminRunEnd(t, 0));
    PrefixSplit(t, r);
    r
  }

  lemma PrefixSplit(t: string, r: Option<string>)
    requires r.Some? ==> |r.value| <= |t| && r.value == t[..|r.value|]
    ensures r.Some? ==> t == r.value + t[|r.value|..]
  {
    if r.Some? {
      assert t == t[..|r.value|] + t[|r.value|..];
    }
  }

  /** The date text of subfield `code` of an administrative field, if any. */
  function AdminDateOf(df: DataField, code: string): Option<string>
  {
    var s := FirstWithCode(df.subfields, code);
    if s.Some? && s.value.text.Some? then AdminDate(s.value.text.value) else None
  }

  /** The document being built while the fields are read. */
  datatype Acc = Acc(marc: MarcMap, sup: Option<bool>, cDate: Option<string>, uDate: Option<string>,
                     raised: bool, messages: seq<string>)

  /** Field 988 feeds `sup` ($e equal to "true"), `c_date` ($b) and `u_date`
    * ($d); a 988 without $e makes Python raise. */
  function AdminStep(acc: Acc, df: DataField): Acc
  {
    var e := FirstWithCode(df.subfields, "e");
    if e.None? then acc.(raised := true)
    else
      var c := AdminDateOf(df, "b");
      var u := AdminDateOf(df, "d");
      acc.(sup := Some(e.value.text == Some("true")),
           cDate := if c.Some? then c else acc.cDate,
           uDate := if u.Some? then u else acc.uDate)
  }

  /** One data field: 988 goes to the administrative keys; any other is
    * appended under its cleaned tag, which raises when that key already holds a
    * control field's text. */
  function FieldStep(acc: Acc, df: DataField): Acc
  {
    var tag := CleanTag(df.tag);
    var msgs := acc.messages + TagIssues(df.tag);
    if tag == "988" then AdminStep(acc.(messages := msgs), df)
    else
      var msgs2 := msgs + IndicatorIssues(df.ind1, tag) + IndicatorIssues(df.ind2, tag)
                        + SubIssues(df.subfields, tag);
      if tag in acc.marc && acc.marc[tag].Control? then acc.(raised := true, messages := msgs2)
      else acc.(marc := acc.marc[tag := Fields(FieldsAt(acc.marc, tag) + [FieldOf(df)])], messages := msgs2)
  }

  /** The data fields read in document order; reading stops at a raise. */
  function DataFieldsFold(acc: Acc, dfs: seq<DataField>): Acc
  {
    if |dfs| == 0 then acc
    else
      var a := DataFieldsFold(acc, dfs[..|dfs| - 1]);
      if a.raised then a else FieldStep(a, dfs[|dfs| - 1])
  }

  /** The control fields read in document order: each stores its text under
    * its cleaned tag. */
  function ControlFold(marc: MarcMap, msgs: seq<string>, cfs: seq<ControlField>): (MarcMap, seq<string>)
  {
    if |cfs| == 0 then (marc, msgs)
    else
      var (m, ms) := ControlFold(marc, msgs, cfs[..|cfs| - 1]);
      var c := cfs[|cfs| - 1];
      (m[CleanTag(c.tag) := Control(c.text)], ms + TagIssues(c.tag))
  }

  /** What `to_json` returns. */
  datatype Converted = NoJson | Json(rec: JsonRecord) | Raised

  /** The result of `to_json` with the record's new error and data-error message lists. */
  datatype Conversion = Conversion(result: Converted, errorMessages: seq<string>, dataErrorMessages: seq<string>)

  function NewData(mmsId: string, pDate: int, marc: MarcMap, deleted: Option<bool>,
                   sup: Option<bool>, cDate: Option<string>, uDate: Option<string>): JsonData
  {
    JsonData(mmsId, pDate, Some(marc), deleted, sup, cDate, uDate, None, None, None, None)
  }

  /** `to_json` on a record with the given data and MMS id. */
  function ToJsonSpec(src: XmlSource, mmsId: Option<string>, errs: seq<string>, dmsgs: seq<string>): Conversion
  {
    if src.Unparsable? || mmsId.None? then Conversion(NoJson, errs, dmsgs)
    else
      var x := src.tree;
      if x.header.None? || x.header.value.datestamp.None? then
        Conversion(NoJson, errs + ["Datestamp not found"], dmsgs)
      else
        var pDate := x.header.value.datestamp.value;
        if IsDeleted(x) then
          Conversion(Json(NewJsonRecord(NewData(mmsId.value, pDate, map[], Some(true), None, None, None), dmsgs)),
                     errs, dmsgs)
        else if x.metadata.None? then Conversion(NoJson, errs + ["Metadata not found"], dmsgs)
        else if x.metadata.value.leader.Missing? then Conversion(NoJson, errs + ["Leader field not found"], dmsgs)
        else
          var md := x.metadata.value;
          var (m1, ms1) := ControlFold(map["leader" := Control(md.leader.text)], dmsgs, md.controlFields);
          var a := DataFieldsFold(Acc(m1, None, None, None, false, ms1), md.dataFields);
          if a.raised then Conversion(Raised, errs, a.messages)
          else
            var d := NewData(mmsId.value, pDate, a.marc, None, a.sup, a.cDate, a.uDate);
            if NewJsonRecordRaises(d) then Conversion(Raised, errs, a.messages)
            else Conversion(Json(NewJsonRecord(d, a.messages)), errs, a.messages)
  }

  // ---------------------------------------------------------------
  // The record object
  // ---------------------------------------------------------------

  /** The messages the `XmlRecord` constructor records: the source did not
    * parse, or no MMS id was found in it. */
  function ConstructionErrors(s: XmlSource): (r: seq<string>)
    ensures |r| > 0 <==> s.Unparsable? || LookupMmsId(s).NotFound?
  {
    (if s.Unparsable? then ["Invalid xml data"] else []) + (if LookupMmsId(s).NotFound? then ["MMS ID not found"] else [])
  }

  /** A converted record carries the MMS id it was converted with. */
  lemma JsonCarriesId(src: XmlSource, mmsId: Option<string>, errs: seq<string>, dmsgs: seq<string>)
    requires ToJsonSpec(src, mmsId, errs, dmsgs).result.Json?
    ensures mmsId.Some? && ToJsonSpec(src, mmsId, errs, dmsgs).result.rec.data.mmsId == mmsId.value
  {
  }

  class XmlRecord {
    const src: XmlSource
    var mmsId: Option<string>
    var error: bool
    var errorMessages: seq<string>
    var dataError: bool
    var dataErrorMessages: seq<string>

    /** `XmlRecord(xml_data)`; Python raises when a deleted record has no
      * identifier element, so that case is excluded here and handled by callers. */
    constructor (s: XmlSource)
      requires LookupMmsId(s) != Raises
      ensures src == s && !dataError && dataErrorMessages == []
      ensures mmsId == (if LookupMmsId(s).Found? then LookupMmsId(s).id else None)
      ensures error <==> s.Unparsable? || LookupMmsId(s).NotFound?
      ensures errorMessages == ConstructionErrors(s)
    {
      src := s;
      dataError := false;
      dataErrorMessages := [];
      var errs: seq<string> := [];
      if s.Unparsable? {
        errs := errs + ["Invalid xml data"];
      }
      var lookup := LookupMmsId(s);
      if lookup.NotFound? {
        errs := errs + ["MMS ID not found"];
      }
      mmsId := if lookup.Found? then lookup.id else None;
      error := |errs| > 0;
      errorMessages := errs;
    }

    predicate IsDeletedRecord()
    {
      src.Parsed? && IsDeleted(src.tree)
    }

    /** `clean_f_tag`. */
    method CleanFTag(tag: Option<string>) returns (r: string)
      modifies this
      ensures r == CleanTag(tag)
      ensures dataErrorMessages == old(dataErrorMessages) + TagIssues(tag)
      ensures dataError == (old(dataError) || !ValidTag(tag))
      ensures mmsId == old(mmsId) && error == old(error) && errorMessages == old(errorMessages)
    {
      if tag.None? {
        dataError := true;
        dataErrorMessages := dataErrorMessages + ["Tag is None"];
        return Error;
      }
      if !TagMatches(tag.value) {
        dataError := true;
        dataErrorMessages := dataErrorMessages + ["invalid tag: " + tag.value];
        return Error;
      }
      return tag.value;
    }

    /** `clean_f_indicator`. */
    method CleanFIndicator(ind: Option<string>, tag: string) returns (r: string)
      modifies this
      ensures r == CleanIndicator(ind)
      ensures dataErrorMessages == old(dataErrorMessages) + IndicatorIssues(ind, tag)
      ensures dataError == (old(dataError) || !ValidIndicator(ind))
      ensures mmsId == old(mmsId) && error == old(error) && errorMessages == old(errorMessages)
    {
      if ind.None? {
        dataError := true;
        dataErrorMessages := dataErrorMessages + ["indicator is None (tag " + tag + ")"];
        return Error;
      }
      if !IndicatorMatches(ind.value) {
        dataError := true;
        dataErrorMessages := dataErrorMessages + ["invalid indicator: " + ind.value + " (tag " + tag + ")"];
        return Error;
      }
      return ind.value;
    }

    /** `clean_subf_code`. */
    method CleanSubfCode(code: Option<string>, tag: string) returns (r: string)
      modifies this
      ensures r == CleanCode(code)
      ensures dataErrorMessages == old(dataErrorMessages) + CodeIssues(code, tag)
      ensures dataError == (old(dataError) || !ValidCode(code))
      ensures mmsId == old(mmsId) && error == old(error) && errorMessages == old(errorMessages)
    {
      if code.None? {
        dataError := true;
        dataErrorMessages := dataErrorMessages + ["Code is None"];
        return Error;
      }
      if !CodeMatches(code.value) {
        dataError := true;
        dataErrorMessages := dataErrorMessages + ["invalid code: " + code.value + " (tag " + tag + ")"];
        return Error;
      }
      if DigitMatches(code.value) {
        return "n" + code.value;
      }
      return code.value;
    }

    /** The `sub` list of one data field, cleaning the codes of the kept subfields. */
    method ReadSubfields(subs: seq<Subfield>, tag: string) returns (out: seq<SubJson>)
      modifies this
      ensures out == SubsOf(subs)
      ensures dataErrorMessages == old(dataErrorMessages) + SubIssues(subs, tag)
      ensures dataError == (old(dataError) || |SubIssues(subs, tag)| > 0)
      ensures mmsId == old(mmsId) && error == old(error) && errorMessages == old(errorMessages)
    {
      out := [];
      var j := 0;
      while j < |subs|
        invariant 0 <= j <= |subs|
        invariant out == SubsOf(subs[..j])
        invariant dataErrorMessages == old(dataErrorMessages) + SubIssues(subs[..j], tag)
        invariant dataError == (old(dataError) || |SubIssues(subs[..j], tag)| > 0)
        invariant mmsId == old(mmsId) && error == old(error) && errorMessages == old(errorMessages)
      {
        assert subs[..j + 1][..j] == subs[..j];
        if subs[j].text.Some? {
          var code := CleanSubfCode(subs[j].code, tag);
          out := out + [SubJson(code, subs[j].text.value)];
        }
        j := j + 1;
      }
      assert subs[..j] == subs;
    }

    /** One data field of `to_json`'s second loop. */
    method ReadDataField(acc: Acc, df: DataField) returns (next: Acc)
      requires !acc.raised && acc.messages == dataErrorMessages
      modifies this
      ensures next == FieldStep(acc, df)
      ensures dataErrorMessages == next.messages && |next.messages| >= |acc.messages|
      ensures dataError == (old(dataError) || |next.messages| > |acc.messages|)
      ensures mmsId == old(mmsId) && error == old(error) && errorMessages == old(errorMessages)
    {
      var tag := CleanFTag(df.tag);
      if tag == "988" {
        var e := FirstWithCode(df.subfields, "e");
        if e.None? {
          return acc.(raised := true, messages := dataErrorMessages);
        }
        var c := AdminDateOf(df, "b");
        var u := AdminDateOf(df, "d");
        return acc.(sup := Some(e.value.text == Some("true")),
                    cDate := if c.Some? then c else acc.cDate,
                    uDate := if u.Some? then u else acc.uDate,
                    messages := dataErrorMessages);
      }
      var ind1 := CleanFIndicator(df.ind1, tag);
      var ind2 := CleanFIndicator(df.ind2, tag);
      var sub := ReadSubfields(df.subfields, tag);
      if tag in acc.marc && acc.marc[tag].Control? {
        return acc.(raised := true, messages := dataErrorMessages);
      }
      var field := FieldJson(ind1, ind2, sub);
      next := acc.(marc := acc.marc[tag := Fields(FieldsAt(acc.marc, tag) + [field])],
                   messages := dataErrorMessages);
    }

    /** The control-field loop of `to_json`: each field's text is stored
      * under its cleaned tag, and the tag's issues are reported. */
    method ReadControlFields(marc0: MarcMap, cfs: seq<ControlField>) returns (marc: MarcMap)
      modifies this
      ensures (marc, dataErrorMessages) == ControlFold(marc0, old(dataErrorMessages), cfs)
      ensures |dataErrorMessages| >= |old(dataErrorMessages)|
      ensures dataError == (old(dataError) || |dataErrorMessages| > |old(dataErrorMessages)|)
      ensures mmsId == old(mmsId) && error == old(error) && errorMessages == old(errorMessages)
    {
      marc := marc0;
      for i := 0 to |cfs|
        invariant (marc, dataErrorMessages) == ControlFold(marc0, old(dataErrorMessages), cfs[..i])
        invariant |dataErrorMessages| >= |old(dataErrorMessages)|
        invariant dataError == (old(dataError) || |dataErrorMessages| > |old(dataErrorMessages)|)
        invariant mmsId == old(mmsId) && error == old(error) && errorMessages == old(errorMessages)
      {
        assert cfs[..i + 1][..i] == cfs[..i];
        var tag := CleanFTag(cfs[i].tag);
        marc := marc[tag := Control(cfs[i].text)];
      }
      assert cfs[..|cfs|] == cfs;
    }

    /** The data-field loop of `to_json`, left by the first field that raises. */
    method ReadDataFields(acc0: Acc, dfs: seq<DataField>) returns (acc: Acc)
      requires !acc0.raised && acc0.messages == dataErrorMessages
      modifies this
      ensures acc == DataFieldsFold(acc0, dfs)
      ensures dataErrorMessages == acc.messages && |acc.messages| >= |acc0.messages|
      ensures dataError == (old(dataError) || |acc.messages| > |acc0.messages|)
      ensures mmsId == old(mmsId) && error == old(error) && errorMessages == old(errorMessages)
    {
      acc := acc0;
      var k := 0;
      while k < |dfs|
        invariant 0 <= k <= |dfs|
        invariant acc == DataFieldsFold(acc0, dfs[..k]) && !acc.raised
        invariant dataErrorMessages == acc.messages && |acc.messages| >= |acc0.messages|
        invariant dataError == (old(dataError) || |acc.messages| > |acc0.messages|)
        invariant mmsId == old(mmsId) && error == old(error) && errorMessages == old(errorMessages)
      {
        assert dfs[..k + 1][..k] == dfs[..k];
        acc := ReadDataField(acc, dfs[k]);
        k := k + 1;
        if acc.raised {
          RaisedStops(acc0, dfs, k);
          return;
        }
      }
      assert dfs[..k] == dfs;
    }

    /** `to_json`: the JSON document of the record, or nothing when the record
      * did not parse or lacks an MMS id, a datestamp, metadata or a leader;
      * `Raised` when reading a data field or building the `JsonRecord` raises. */
    method ToJson() returns (r: Converted)
      modifies this
      ensures var spec := ToJsonSpec(src, old(mmsId), old(errorMessages), old(dataErrorMessages));
              r == spec.result && errorMessages == spec.errorMessages &&
              dataErrorMessages == spec.dataErrorMessages
      ensures error == (old(error) || |errorMessages| > |old(errorMessages)|)
      ensures dataError == (old(dataError) || |dataErrorMessages| > |old(dataErrorMessages)|)
      ensures mmsId == old(mmsId)
    {
      if src.Unparsable? || mmsId.None? {
        return NoJson;
      }
      var x := src.tree;
      if x.header.None? || x.header.value.datestamp.None? {
        error := true;
        errorMessages := errorMessages + ["Datestamp not found"];
        return NoJson;
      }
      var pDate := x.header.value.datestamp.value;
      if IsDeleted(x) {
        var d := NewData(mmsId.value, pDate, map[], Some(true), None, None, None);
        return Json(NewJsonRecord(d, dataErrorMessages));
      }
      if x.metadata.None? {
        error := true;
        errorMessages := errorMessages + ["Metadata not found"];
        return NoJson;
      }
      var md := x.metadata.value;
      if md.leader.Missing? {
        error := true;
        errorMessages := errorMessages + ["Leader field not found"];
        return NoJson;
      }
      var marc := ReadControlFields(map["leader" := Control(md.leader.text)], md.controlFields);
      var acc := ReadDataFields(Acc(marc, None, None, None, false, dataErrorMessages), md.dataFields);
      if acc.raised {
        return Raised;
      }
      var d := NewData(mmsId.value, pDate, acc.marc, None, acc.sup, acc.cDate, acc.uDate);
      if NewJsonRecordRaises(d) {
        return Raised;
      }
      return Json(NewJsonRecord(d, dataErrorMessages));
    }
  }

  /** Once a field raises, the rest of the fields are not read. */
  lemma {:induction false} RaisedStops(acc0: Acc, dfs: seq<DataField>, k: nat)
    requires k <= |dfs| && DataFieldsFold(acc0, dfs[..k]).raised
    ensures DataFieldsFold(acc0, dfs) == DataFieldsFold(acc0, dfs[..k])
    decreases |dfs| - k
  {
    if k < |dfs| {
      assert dfs[..k + 1][..k] == dfs[..k];
      RaisedStops(acc0, dfs, k + 1);
    } else {
      assert dfs[..k] == dfs;
    }
  }

  // ---------------------------------------------------------------
  // Properties of to_json
  // ---------------------------------------------------------------

  /** `to_json` gives nothing for a record that did not parse or has no MMS id
    * (without a new message), and nothing, with one error message, for a
    * record lacking a datestamp, or a live record lacking metadata or a leader.
    * A deleted record becomes `{mms_id, p_date, marc: {}, deleted: True}`. */
  lemma {:induction false} ToJsonOutcomes(src: XmlSource, id: Option<string>, errs: seq<string>, dmsgs: seq<string>)
    ensures var c := ToJsonSpec(src, id, errs, dmsgs);
            (src.Unparsable? || id.None?) ==> c.result == NoJson && c.errorMessages == errs
    ensures var c := ToJsonSpec(src, id, errs, dmsgs);
            src.Parsed? && id.Some? && (src.tree.header.None? || src.tree.header.value.datestamp.None?) ==>
              c.result == NoJson && |c.errorMessages| == |errs| + 1
    ensures var c := ToJsonSpec(src, id, errs, dmsgs);
            src.Parsed? && id.Some? && src.tree.header.Some? && src.tree.header.value.datestamp.Some? ==>
              (IsDeleted(src.tree) ==>
                 c.result.Json? && c.result.rec.deleted && c.result.rec.data.deleted == Some(true) &&
                 c.result.rec.data.marc == Some(map[]) && c.errorMessages == errs) &&
              (!IsDeleted(src.tree) && (src.tree.metadata.None? || src.tree.metadata.value.leader.Missing?) ==>
                 c.result == NoJson && |c.errorMessages| == |errs| + 1) &&
              (c.result.Json? ==> c.result.rec.data.mmsId == id.value &&
                                  c.result.rec.data.pDate == src.tree.header.value.datestamp.value)
    ensures ToJsonSpec(src, id, errs, dmsgs).result != NoJson ==>
              src.Parsed? && id.Some? && src.tree.header.Some? && src.tree.header.value.datestamp.Some?
  {
    if src.Parsed? && id.Some? && src.tree.header.Some? && src.tree.header.value.datestamp.Some? {
      var x := src.tree;
      var pDate := x.header.value.datestamp.value;
      if IsDeleted(x) {
        NewJsonRecordContract(NewData(id.value, pDate, map[], Some(true), None, None, None), dmsgs);
      } else if x.metadata.Some? && x.metadata.value.leader.Present? {
        var md := x.metadata.value;
        var (m1, ms1) := ControlFold(map["leader" := Control(md.leader.text)], dmsgs, md.controlFields);
        var a := DataFieldsFold(Acc(m1, None, None, None, false, ms1), md.dataFields);
        if !a.raised {
          NewJsonRecordContract(NewData(id.value, pDate, a.marc, None, a.sup, a.cDate, a.uDate), a.messages);
        }
      }
    }
  }

  /** A record `to_json` returns can be built again from its document without
    * raising, as `get_active_record` does with a stored one: its `marc` and
    * `deleted` keys are those the constructor did not raise on. */
  lemma ToJsonRebuilds(src: XmlSource, id: Option<string>, errs: seq<string>, dmsgs: seq<string>)
    requires ToJsonSpec(src, id, errs, dmsgs).result.Json?
    ensures !NewJsonRecordRaises(ToJsonSpec(src, id, errs, dmsgs).result.rec.data)
  {
    var x := src.tree;
    var pDate := x.header.value.datestamp.value;
    if IsDeleted(x) {
      NewJsonRecordContract(NewData(id.value, pDate, map[], Some(true), None, None, None), dmsgs);
    } else {
      var md := x.metadata.value;
      var (m1, ms1) := ControlFold(map["leader" := Control(md.leader.text)], dmsgs, md.controlFields);
      var a := DataFieldsFold(Acc(m1, None, None, None, false, ms1), md.dataFields);
      NewJsonRecordContract(NewData(id.value, pDate, a.marc, None, a.sup, a.cDate, a.uDate), a.messages);
    }
  }

  /** The subfields kept in a data field's `sub` list are exactly those with
    * text, each under its cleaned code. */
  lemma {:induction false} SubsOfContents(subs: seq<Subfield>)
    ensures |SubsOf(subs)| <= |subs|
    ensures forall e :: e in SubsOf(subs) ==>
              exists s :: s in subs && s.text == Some(e.text) && CleanCode(s.code) == e.code
    ensures forall s :: s in subs && s.text.Some? ==> SubJson(CleanCode(s.code), s.text.value) in SubsOf(subs)
  {
    if |subs| > 0 {
      var init := subs[..|subs| - 1];
      SubsOfContents(init);
      assert subs == init + [subs[|subs| - 1]];
      forall e | e in SubsOf(subs)
        ensures exists s :: s in subs && s.text == Some(e.text) && CleanCode(s.code) == e.code
      {
        if e in SubsOf(init) {
          var s :| s in init && s.text == Some(e.text) && CleanCode(s.code) == e.code;
          assert s in subs;
        } else {
          assert subs[|subs| - 1] in subs;
        }
      }
    }
  }

  /** Every code in a data field's `sub` list is left unchanged by cleaning it
    * again. */
  lemma SubsOfCodesClean(subs: seq<Subfield>)
    ensures forall e :: e in SubsOf(subs) ==> CleanCode(Some(e.code)) == e.code
  {
    SubsOfContents(subs);
    forall e | e in SubsOf(subs) ensures CleanCode(Some(e.code)) == e.code {
      var s :| s in subs && s.text == Some(e.text) && CleanCode(s.code) == e.code;
      CleanCodeContract(s.code, "");
    }
  }

  /** The data fields carrying cleaned tag `t`, as JSON, in document order. */
  function GroupOf(dfs: seq<DataField>, t: string): seq<FieldJson>
  {
    if |dfs| == 0 then []
    else GroupOf(dfs[..|dfs| - 1], t) + (if CleanTag(dfs[|dfs| - 1].tag) == t then [FieldOf(dfs[|dfs| - 1])] else [])
  }

  lemma NotRaisedPrefix(acc: Acc, dfs: seq<DataField>)
    requires |dfs| > 0 && !DataFieldsFold(acc, dfs).raised
    ensures !DataFieldsFold(acc, dfs[..|dfs| - 1]).raised
  {
  }

  /** Reading the data fields never stores anything under "988" and never
    * changes a control field's entry. */
  lemma {:induction false} FoldKeys(acc: Acc, dfs: seq<DataField>)
    ensures "988" in DataFieldsFold(acc, dfs).marc ==> "988" in acc.marc
    ensures forall k :: k in DataFieldsFold(acc, dfs).marc && DataFieldsFold(acc, dfs).marc[k].Control? ==>
              k in acc.marc && acc.marc[k] == DataFieldsFold(acc, dfs).marc[k]
    ensures forall k :: k in acc.marc ==> k in DataFieldsFold(acc, dfs).marc
  {
    if |dfs| > 0 {
      FoldKeys(acc, dfs[..|dfs| - 1]);
    }
  }

  /** Data fields are grouped per cleaned tag in document order: the list under
    * a tag that no control field uses is the list of that tag's fields. */
  lemma {:induction false} FoldGroups(acc: Acc, dfs: seq<DataField>, t: string)
    requires t != "988" && !(t in acc.marc && acc.marc[t].Control?)
    requires !DataFieldsFold(acc, dfs).raised
    ensures FieldsAt(DataFieldsFold(acc, dfs).marc, t) == FieldsAt(acc.marc, t) + GroupOf(dfs, t)
    ensures !(t in DataFieldsFold(acc, dfs).marc && DataFieldsFold(acc, dfs).marc[t].Control?)
  {
    if |dfs| > 0 {
      var init := dfs[..|dfs| - 1];
      NotRaisedPrefix(acc, dfs);
      FoldGroups(acc, init, t);
      StepGroups(DataFieldsFold(acc, init), dfs[|dfs| - 1], t);
    }
  }

  lemma StepGroups(a: Acc, df: DataField, t: string)
    requires t != "988" && !(t in a.marc && a.marc[t].Control?)
    requires !FieldStep(a, df).raised
    ensures FieldsAt(FieldStep(a, df).marc, t) ==
              FieldsAt(a.marc, t) + (if CleanTag(df.tag) == t then [FieldOf(df)] else [])
    ensures !(t in FieldStep(a, df).marc && FieldStep(a, df).marc[t].Control?)
  {
  }

  /** Without a 988 lacking $e and without a data field whose cleaned tag is
    * already a control field's key, reading the data fields does not raise. */
  lemma {:induction false} FoldNoRaise(acc: Acc, dfs: seq<DataField>)
    requires !acc.raised
    requires forall df :: df in dfs && CleanTag(df.tag) == "988" ==> FirstWithCode(df.subfields, "e").Some?
    requires forall df :: df in dfs && CleanTag(df.tag) != "988" ==>
               !(CleanTag(df.tag) in acc.marc && acc.marc[CleanTag(df.tag)].Control?)
    ensures !DataFieldsFold(acc, dfs).raised
  {
    if |dfs| > 0 {
      var init := dfs[..|dfs| - 1];
      assert forall df :: df in init ==> df in dfs;
      FoldNoRaise(acc, init);
      FoldKeys(acc, init);
      var df := dfs[|dfs| - 1];
      assert df in dfs;
    }
  }

  /** The control fields store their text under their cleaned tags, next to "leader". */
  lemma {:induction false} ControlFoldKeys(m: MarcMap, ms: seq<string>, cfs: seq<ControlField>, k: string)
    ensures k in ControlFold(m, ms, cfs).0 ==> k in m || exists c :: c in cfs && CleanTag(c.tag) == k
    ensures k in ControlFold(m, ms, cfs).0 ==> ControlFold(m, ms, cfs).0[k].Control? || (k in m && m[k] == ControlFold(m, ms, cfs).0[k])
  {
    if |cfs| > 0 {
      ControlFoldKeys(m, ms, cfs[..|cfs| - 1], k);
      if exists c :: c in cfs[..|cfs| - 1] && CleanTag(c.tag) == k {
        var c :| c in cfs[..|cfs| - 1] && CleanTag(c.tag) == k;
        assert c in cfs;
      }
    }
  }

  /** Field 988 feeds `sup`, `c_date` and `u_date` and never reaches `marc`
    * (unless a control field carries tag 988); every other data field is found
    * under its cleaned tag, in document order. */
  lemma ToJsonMarc(src: XmlSource, id: Option<string>, errs: seq<string>, dmsgs: seq<string>, t: string)
    requires ToJsonSpec(src, id, errs, dmsgs).result.Json? && !IsDeleted(src.tree)
    requires forall c :: c in src.tree.metadata.value.controlFields ==> CleanTag(c.tag) != "988"
    requires t != "988" && t != "leader" && forall c :: c in src.tree.metadata.value.controlFields ==> CleanTag(c.tag) != t
    ensures ToJsonSpec(src, id, errs, dmsgs).result.rec.data.marc.Some?
    ensures "988" !in ToJsonSpec(src, id, errs, dmsgs).result.rec.data.marc.value
    ensures FieldsAt(ToJsonSpec(src, id, errs, dmsgs).result.rec.data.marc.value, t) ==
              GroupOf(src.tree.metadata.value.dataFields, t)
  {
    ToJsonOutcomes(src, id, errs, dmsgs);
    var md := src.tree.metadata.value;
    var m0 := map["leader" := Control(md.leader.text)];
    var (m1, ms1) := ControlFold(m0, dmsgs, md.controlFields);
    var acc := Acc(m1, None, None, None, false, ms1);
    ControlFoldKeys(m0, dmsgs, md.controlFields, "988");
    ControlFoldKeys(m0, dmsgs, md.controlFields, t);
    FoldKeys(acc, md.dataFields);
    FoldGroups(acc, md.dataFields, t);
    var a := DataFieldsFold(acc, md.dataFields);
    NewJsonRecordContract(NewData(id.value, src.tree.header.value.datestamp.value, a.marc, None, a.sup, a.cDate, a.uDate), a.messages);
  }
}
