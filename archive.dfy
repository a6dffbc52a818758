/**
 * The history of a record: an archive document holding the record's past
 * versions, de-duplicated on `p_date`, kept sorted by `p_date`, and pruned to
 * the first version, the last three and the first version of every year.
 */
module Archive {
  import opened Wrappers
  import opened Calendar
  import opened Marc

  /** An archive document (`to_archive` builds one; `add_record_to_archive` updates it). */
  datatype ArchiveData = ArchiveData(
    mmsId: string,
    pDate: int,
    cDate: string,
    uDate: string,
    sup: bool,
    deleted: bool,
    versions: seq<JsonData>,
    dataError: Option<bool>,
    dataErrorMessages: Option<seq<string>>)

  /** `to_archive`: a one-version archive of the record. The record must carry
    * `c_date`, `u_date` and `sup` (only field 988 supplies them); Python raises
    * `KeyError` otherwise. */
  function ToArchive(r: JsonRecord): (a: Option<ArchiveData>)
  {
    if r.data.cDate.None? || r.data.uDate.None? || r.data.sup.None? then None
    else Some(ArchiveData(r.data.mmsId, r.data.pDate, r.data.cDate.value, r.data.uDate.value,
                          r.data.sup.value, r.deleted, [r.data],
                          if r.dataError then Some(true) else None,
                          if r.dataError then Some(r.dataErrorMessages) else None))
  }

  /** `get_versions_p_date`. */
  function PDates(vs: seq<JsonData>): (ds: seq<int>)
    ensures |ds| == |vs| && forall i :: 0 <= i < |vs| ==> ds[i] == vs[i].pDate
  {
    if |vs| == 0 then [] else PDates(vs[..|vs| - 1]) + [vs[|vs| - 1].pDate]
  }

  // ---------------------------------------------------------------
  // sort_versions
  // ---------------------------------------------------------------

  predicate SortedByDate(vs: seq<JsonData>)
  {
    forall i, j :: 0 <= i < j < |vs| ==> vs[i].pDate <= vs[j].pDate
  }

  predicate StrictlyByDate(vs: seq<JsonData>)
  {
    forall i, j :: 0 <= i < j < |vs| ==> vs[i].pDate < vs[j].pDate
  }

  /** Places `x` after every version not later than it, as a stable sort does. */
  function InsertByDate(x: JsonData, vs: seq<JsonData>): (r: seq<JsonData>)
    requires SortedByDate(vs)
    ensures SortedByDate(r)
    ensures multiset(r) == multiset(vs) + multiset{x}
    ensures |r| == |vs| + 1
  {
    if |vs| == 0 then [x]
    else if x.pDate < vs[0].pDate then
      assert forall k :: 0 <= k < |vs| ==> x.pDate <= vs[k].pDate;
      ConsSorted(x, vs);
      [x] + vs
    else
      var rest := InsertByDate(x, vs[1..]);
      assert vs == [vs[0]] + vs[1..];
      BoundSurvivesInsert(vs[0], vs[1..], x, rest);
      ConsSorted(vs[0], rest);
      [vs[0]] + rest
  }

  /** A date at or below every version of `tail` and below `x` stays at or
    * below every version of a list holding `tail` and `x`. */
  lemma BoundSurvivesInsert(h: JsonData, tail: seq<JsonData>, x: JsonData, rest: seq<JsonData>)
    requires multiset(rest) == multiset(tail) + multiset{x}
    requires h.pDate <= x.pDate && forall k :: 0 <= k < |tail| ==> h.pDate <= tail[k].pDate
    ensures forall k :: 0 <= k < |rest| ==> h.pDate <= rest[k].pDate
  {
    forall k | 0 <= k < |rest| ensures h.pDate <= rest[k].pDate {
      assert rest[k] in multiset(rest);
      if rest[k] != x {
        assert rest[k] in multiset(tail);
        var m :| 0 <= m < |tail| && tail[m] == rest[k];
      }
    }
  }

  /** A version no later than every version of a sorted list can head it. */
  lemma ConsSorted(h: JsonData, rest: seq<JsonData>)
    requires SortedByDate(rest) && forall k :: 0 <= k < |rest| ==> h.pDate <= rest[k].pDate
    ensures SortedByDate([h] + rest)
  {
    var zs := [h] + rest;
    forall i, j | 0 <= i < j < |zs| ensures zs[i].pDate <= zs[j].pDate {
      assert zs[j] == rest[j - 1];
      if i > 0 {
        assert zs[i] == rest[i - 1];
      }
    }
  }

  /** `sorted(versions, key=lambda x: x['p_date'])`. */
  function SortByDate(vs: seq<JsonData>): (r: seq<JsonData>)
    ensures SortedByDate(r)
    ensures multiset(r) == multiset(vs)
    ensures |r| == |vs|
  {
    if |vs| == 0 then []
    else
      assert vs == vs[..|vs| - 1] + [vs[|vs| - 1]];
      InsertByDate(vs[|vs| - 1], SortByDate(vs[..|vs| - 1]))
  }

  /** Sorting a sorted list changes nothing. */
  lemma {:induction false} SortSorted(vs: seq<JsonData>)
    requires SortedByDate(vs)
    ensures SortByDate(vs) == vs
  {
    if |vs| > 0 {
      var init, last := vs[..|vs| - 1], vs[|vs| - 1];
      assert init + [last] == vs;
      InsertLast(last, init);
      SortSorted(init);
      assert SortByDate(vs) == InsertByDate(last, SortByDate(init));
    }
  }

  lemma {:induction false} InsertLast(x: JsonData, vs: seq<JsonData>)
    requires SortedByDate(vs + [x])
    ensures SortedByDate(vs)
    ensures InsertByDate(x, vs) == vs + [x]
  {
    assert forall i :: 0 <= i < |vs| ==> vs[i] == (vs + [x])[i];
    if |vs| > 0 {
      assert (vs + [x])[0] == vs[0] && (vs + [x])[|vs|] == x;
      assert vs[1..] + [x] == (vs + [x])[1..];
      InsertLast(x, vs[1..]);
      assert [vs[0]] + (vs[1..] + [x]) == vs + [x];
    }
  }

  /** Inserting a version whose date is new into a list with strictly
    * increasing dates keeps the dates strictly increasing. */
  lemma {:induction false} InsertStrict(x: JsonData, vs: seq<JsonData>)
    requires StrictlyByDate(vs) && x.pDate !in PDates(vs)
    ensures StrictlyByDate(InsertByDate(x, vs))
  {
    if |vs| == 0 {
    } else if x.pDate < vs[0].pDate {
      assert forall k :: 0 <= k < |vs| ==> x.pDate < vs[k].pDate;
      ConsStrict(x, vs);
    } else {
      NewDateInTail(x, vs);
      InsertStrict(x, vs[1..]);
      var rest := InsertByDate(x, vs[1..]);
      InsertedAbove(x, vs);
      assert InsertByDate(x, vs) == [vs[0]] + rest;
      ConsStrict(vs[0], rest);
    }
  }

  /** A new date not before the head of a strictly dated list is after it
    * and new to the tail. */
  lemma NewDateInTail(x: JsonData, vs: seq<JsonData>)
    requires |vs| > 0 && StrictlyByDate(vs) && x.pDate !in PDates(vs) && x.pDate >= vs[0].pDate
    ensures vs[0].pDate < x.pDate && x.pDate !in PDates(vs[1..])
  {
    assert PDates(vs)[0] == vs[0].pDate;
    forall k | 0 <= k < |vs| - 1 ensures PDates(vs[1..])[k] != x.pDate {
      assert PDates(vs[1..])[k] == vs[k + 1].pDate == PDates(vs)[k + 1];
    }
  }

  /** Inserting into the tail of a strictly dated list keeps every version
    * later than its head, when the inserted one is. */
  lemma InsertedAbove(x: JsonData, vs: seq<JsonData>)
    requires |vs| > 0 && StrictlyByDate(vs) && vs[0].pDate < x.pDate
    ensures forall k :: 0 <= k < |InsertByDate(x, vs[1..])| ==> vs[0].pDate < InsertByDate(x, vs[1..])[k].pDate
  {
    var rest := InsertByDate(x, vs[1..]);
    forall k | 0 <= k < |rest| ensures vs[0].pDate < rest[k].pDate {
      assert rest[k] in multiset(rest);
      if rest[k] != x {
        assert rest[k] in multiset(vs[1..]);
        var m :| 0 <= m < |vs[1..]| && vs[1..][m] == rest[k];
        assert vs[m + 1] == rest[k];
      }
    }
  }

  /** A version earlier than every version of a strictly dated list can head it. */
  lemma ConsStrict(h: JsonData, rest: seq<JsonData>)
    requires StrictlyByDate(rest) && forall k :: 0 <= k < |rest| ==> h.pDate < rest[k].pDate
    ensures StrictlyByDate([h] + rest)
  {
    var zs := [h] + rest;
    forall i, j | 0 <= i < j < |zs| ensures zs[i].pDate < zs[j].pDate {
      assert zs[j] == rest[j - 1];
      if i > 0 {
        assert zs[i] == rest[i - 1];
      }
    }
  }

  // ---------------------------------------------------------------
  // filter_versions
  // ---------------------------------------------------------------

  /** The year of each version, in order. */
  function YearsSeq(vs: seq<JsonData>): (ys: seq<int>)
    ensures |ys| == |vs| && forall i :: 0 <= i < |vs| ==> ys[i] == Year(vs[i].pDate)
  {
    if |vs| == 0 then [] else YearsSeq(vs[..|vs| - 1]) + [Year(vs[|vs| - 1].pDate)]
  }

  /** The rule of one step of the pass over `n` versions with years `ys`:
    * version `i` is kept if it is the first, one of the last three, or the
    * first of its year. */
  predicate Keep(ys: seq<int>, i: nat)
    requires i < |ys|
  {
    i == 0 || i >= |ys| - 3 || ys[i] !in ys[..i]
  }

  /** The indices kept among the first `i`, in increasing order. */
  function KeptIndices(ys: seq<int>, i: nat): (idx: seq<nat>)
    requires i <= |ys|
    ensures |idx| <= i
    ensures forall k :: 0 <= k < |idx| ==> idx[k] < i
    ensures forall k, l :: 0 <= k < l < |idx| ==> idx[k] < idx[l]
    ensures i >= 1 ==> |idx| >= 1 && idx[0] == 0
  {
    if i == 0 then [] else KeptIndices(ys, i - 1) + (if Keep(ys, i - 1) then [i - 1] else [])
  }

  /** The elements of `vs` at the indices `idx`. */
  function Select<T>(vs: seq<T>, idx: seq<nat>): (r: seq<T>)
    requires forall k :: 0 <= k < |idx| ==> idx[k] < |vs|
    ensures |r| == |idx| && forall k :: 0 <= k < |idx| ==> r[k] == vs[idx[k]]
  {
    seq(|idx|, k requires 0 <= k < |idx| => vs[idx[k]])
  }

  /** The indices `filter_versions` keeps: all of them up to four versions. */
  function FilterIndices(vs: seq<JsonData>): (idx: seq<nat>)
    ensures forall k :: 0 <= k < |idx| ==> idx[k] < |vs|
  {
    if |vs| <= 4 then seq(|vs|, k requires 0 <= k < |vs| => k)
    else KeptIndices(YearsSeq(vs), |vs|)
  }

  /** `filter_versions`. */
  function Filtered(vs: seq<JsonData>): (r: seq<JsonData>)
    ensures |vs| > 0 ==> |r| > 0
  {
    Select(vs, FilterIndices(vs))
  }

  /** `a` is `b` read at the strictly increasing indices `idx`. */
  predicate Embeds<T(==)>(a: seq<T>, b: seq<T>, idx: seq<nat>)
  {
    |idx| == |a| &&
    (forall k :: 0 <= k < |idx| ==> idx[k] < |b| && a[k] == b[idx[k]]) &&
    (forall k, l :: 0 <= k < l < |idx| ==> idx[k] < idx[l])
  }

  /** The last three indices are kept. */
  lemma KeptTail(ys: seq<int>)
    requires |ys| > 4
    ensures var idx := KeptIndices(ys, |ys|);
            |idx| >= 3 && idx[|idx| - 3] == |ys| - 3 && idx[|idx| - 2] == |ys| - 2 && idx[|idx| - 1] == |ys| - 1
  {
    var n := |ys|;
    assert Keep(ys, n - 1) && Keep(ys, n - 2) && Keep(ys, n - 3);
    var i0 := KeptIndices(ys, n - 3);
    assert KeptIndices(ys, n - 2) == i0 + [n - 3];
    assert KeptIndices(ys, n - 1) == i0 + [n - 3] + [n - 2];
    assert KeptIndices(ys, n) == i0 + [n - 3] + [n - 2] + [n - 1];
  }

  /** An index holding the first occurrence of its year is kept. */
  lemma {:induction false} FirstOfYearKept(ys: seq<int>, i: nat, k: nat)
    requires k < i <= |ys| && ys[k] !in ys[..k]
    ensures k in KeptIndices(ys, i)
  {
    if i - 1 > k {
      FirstOfYearKept(ys, i - 1, k);
    } else {
      assert Keep(ys, k);
      assert KeptIndices(ys, i) == KeptIndices(ys, k) + [k];
    }
  }

  /** Every year has a first occurrence. */
  lemma {:induction false} FirstOccurrence(ys: seq<int>, k: nat) returns (m: nat)
    requires k < |ys|
    ensures m <= k && ys[m] == ys[k] && ys[m] !in ys[..m]
  {
    if ys[k] in ys[..k] {
      var j :| 0 <= j < k && ys[..k][j] == ys[k];
      m := FirstOccurrence(ys, j);
    } else {
      m := k;
    }
  }

  /** The years of the kept indices among the first `i`: the set the loop of
    * `filter_versions` accumulates. */
  function KeptYears(ys: seq<int>, i: nat): set<int>
    requires i <= |ys|
  {
    var idx := KeptIndices(ys, i);
    set k | 0 <= k < |idx| :: ys[idx[k]]
  }

  /** The years met by the pass are all the years it has read. */
  lemma KeptYearsAll(ys: seq<int>, i: nat, y: int)
    requires i <= |ys|
    ensures y in KeptYears(ys, i) <==> y in ys[..i]
  {
    var idx := KeptIndices(ys, i);
    if y in KeptYears(ys, i) {
      var k :| 0 <= k < |idx| && ys[idx[k]] == y;
      assert ys[..i][idx[k]] == y;
    }
    if y in ys[..i] {
      var j :| 0 <= j < i && ys[..i][j] == y;
      var m := FirstOccurrence(ys, j);
      FirstOfYearKept(ys, i, m);
      var k :| 0 <= k < |idx| && idx[k] == m;
      assert ys[idx[k]] == y;
    }
  }

  /** The years of the versions read at `idx` are the years read at `idx`. */
  lemma YearsSelect(vs: seq<JsonData>, idx: seq<nat>)
    requires forall k :: 0 <= k < |idx| ==> idx[k] < |vs|
    ensures YearsSeq(Select(vs, idx)) == Select(YearsSeq(vs), idx)
  {
  }

  /** The tail of a selection that ends with the last three indices. */
  lemma SelectTail<T>(vs: seq<T>, idx: seq<nat>)
    requires |vs| >= 3 && |idx| >= 3 && forall k :: 0 <= k < |idx| ==> idx[k] < |vs|
    requires idx[|idx| - 3] == |vs| - 3 && idx[|idx| - 2] == |vs| - 2 && idx[|idx| - 1] == |vs| - 1
    ensures Select(vs, idx)[|idx| - 3..] == vs[|vs| - 3..]
  {
    var f := Select(vs, idx);
    assert f[|f| - 3..] == [f[|f| - 3], f[|f| - 2], f[|f| - 1]];
    assert vs[|vs| - 3..] == [vs[|vs| - 3], vs[|vs| - 2], vs[|vs| - 1]];
  }

  /** What the first `i` steps of the pass of `filter_versions` keep, step by step. */
  function PassKept(vs: seq<JsonData>, ys: seq<int>, i: nat): seq<JsonData>
    requires |ys| == |vs| && i <= |vs|
  {
    if i == 0 then [] else PassKept(vs, ys, i - 1) + (if Keep(ys, i - 1) then [vs[i - 1]] else [])
  }

  /** The step-by-step pass keeps the versions at the indices the keep rule selects. */
  lemma {:induction false} PassKeptSelects(vs: seq<JsonData>, ys: seq<int>, i: nat)
    requires |ys| == |vs| && i <= |vs|
    ensures PassKept(vs, ys, i) == Select(vs, KeptIndices(ys, i))
  {
    if i > 0 {
      PassKeptSelects(vs, ys, i - 1);
      var idx := KeptIndices(ys, i - 1);
      if Keep(ys, i - 1) {
        var idx1 := idx + [i - 1];
        assert KeptIndices(ys, i) == idx1;
        assert forall k :: 0 <= k < |idx| ==> idx1[k] == idx[k];
        assert idx1[|idx|] == i - 1;
        assert Select(vs, idx1) == Select(vs, idx) + [vs[i - 1]];
      } else {
        assert KeptIndices(ys, i) == idx;
      }
    }
  }

  /** The years among the first `i`: the set `years` of `filter_versions`,
    * which a version not kept leaves as it is since its year is already in it. */
  function YearsRead(ys: seq<int>, i: nat): (r: set<int>)
    requires i <= |ys|
    ensures forall y :: y in r <==> y in ys[..i]
  {
    if i == 0 then {}
    else
      assert ys[..i] == ys[..i - 1] + [ys[i - 1]];
      YearsRead(ys, i - 1) + {ys[i - 1]}
  }

  /** One step of the pass of `filter_versions`: the loop's test is `Keep`,
    * so appending the version and adding its year, or doing nothing, is the
    * next step of `PassKept` and `YearsRead`. */
  lemma PassStep(vs: seq<JsonData>, ys: seq<int>, i: nat, kept: seq<JsonData>, years: set<int>)
    requires ys == YearsSeq(vs) && i < |vs|
    requires kept == PassKept(vs, ys, i) && years == YearsRead(ys, i)
    ensures var c := i == 0 || i >= |vs| - 3 || Year(vs[i].pDate) !in years;
            (if c then kept + [vs[i]] else kept) == PassKept(vs, ys, i + 1) &&
            (if c then years + {Year(vs[i].pDate)} else years) == YearsRead(ys, i + 1)
  {
    assert Year(vs[i].pDate) == ys[i];
  }

  /** The loop of `filter_versions`: one forward pass with the set of years
    * kept so far. */
  method KeepVersions(vs: seq<JsonData>) returns (kept: seq<JsonData>)
    ensures kept == Select(vs, KeptIndices(YearsSeq(vs), |vs|))
  {
    ghost var ys := YearsSeq(vs);
    var years: set<int> := {};
    kept := [];
    for i := 0 to |vs|
      invariant kept == PassKept(vs, ys, i)
      invariant years == YearsRead(ys, i)
    {
      PassStep(vs, ys, i, kept, years);
      if i == 0 || i >= |vs| - 3 || Year(vs[i].pDate) !in years {
        kept := kept + [vs[i]];
        years := years + {Year(vs[i].pDate)};
      }
    }
    PassKeptSelects(vs, ys, |vs|);
  }

  /** Past four versions, `filter_versions` keeps what the pass keeps. */
  lemma FilteredByPass(vs: seq<JsonData>)
    requires |vs| > 4
    ensures Filtered(vs) == Select(vs, KeptIndices(YearsSeq(vs), |vs|))
  {
  }

  /** What `filter_versions` promises about order and size: up to four
    * versions are untouched; otherwise the result is the input read at
    * strictly increasing indices, starting with the first version and ending
    * with the last three. */
  lemma FilteredShape(vs: seq<JsonData>)
    ensures |vs| <= 4 ==> Filtered(vs) == vs
    ensures Embeds(Filtered(vs), vs, FilterIndices(vs))
    ensures |Filtered(vs)| <= |vs|
    ensures |vs| > 0 ==> Filtered(vs)[0] == vs[0]
    ensures |vs| >= 3 ==> |Filtered(vs)| >= 3 && Filtered(vs)[|Filtered(vs)| - 3..] == vs[|vs| - 3..]
  {
    if |vs| > 4 {
      KeptTail(YearsSeq(vs));
      SelectTail(vs, FilterIndices(vs));
    } else if |vs| >= 3 {
      assert Filtered(vs) == vs;
    }
  }

  /** What `filter_versions` promises about years: the first version of each
    * year is kept, so every year still has a version. */
  lemma FilteredYears(vs: seq<JsonData>)
    ensures forall k :: 0 <= k < |vs| && YearsSeq(vs)[k] !in YearsSeq(vs)[..k] ==> vs[k] in Filtered(vs)
    ensures forall k :: 0 <= k < |vs| ==> YearsSeq(vs)[k] in YearsSeq(Filtered(vs))
  {
    var ys := YearsSeq(vs);
    var idx := FilterIndices(vs);
    var f := Filtered(vs);
    YearsSelect(vs, idx);
    var fys := Select(ys, idx);
    forall k | 0 <= k < |vs| && ys[k] !in ys[..k] ensures vs[k] in f {
      var j := KeptAt(ys, vs, k);
      assert f[j] == vs[k];
    }
    forall k | 0 <= k < |vs| ensures ys[k] in fys {
      var m := FirstOccurrence(ys, k);
      var j := KeptAt(ys, vs, m);
      assert fys[j] == ys[m];
    }
  }

  /** The position in the result of a kept first-of-year version. */
  lemma KeptAt(ys: seq<int>, vs: seq<JsonData>, k: nat) returns (j: nat)
    requires ys == YearsSeq(vs) && k < |vs| && ys[k] !in ys[..k]
    ensures j < |FilterIndices(vs)| && FilterIndices(vs)[j] == k
  {
    var idx := FilterIndices(vs);
    if |vs| <= 4 {
      j := k;
    } else {
      FirstOfYearKept(ys, |vs|, k);
      j :| 0 <= j < |idx| && idx[j] == k;
    }
  }

  /** All that `filter_versions` promises. */
  lemma FilteredContract(vs: seq<JsonData>)
    ensures |vs| <= 4 ==> Filtered(vs) == vs
    ensures Embeds(Filtered(vs), vs, FilterIndices(vs))
    ensures |Filtered(vs)| <= |vs|
    ensures |vs| > 0 ==> Filtered(vs)[0] == vs[0]
    ensures |vs| >= 3 ==> |Filtered(vs)| >= 3 && Filtered(vs)[|Filtered(vs)| - 3..] == vs[|vs| - 3..]
    ensures forall k :: 0 <= k < |vs| && YearsSeq(vs)[k] !in YearsSeq(vs)[..k] ==> vs[k] in Filtered(vs)
    ensures forall k :: 0 <= k < |vs| ==> YearsSeq(vs)[k] in YearsSeq(Filtered(vs))
  {
    FilteredShape(vs);
    FilteredYears(vs);
  }

  /** Reading a list with strictly increasing dates at increasing indices
    * gives strictly increasing dates. */
  lemma EmbedsStrict(a: seq<JsonData>, b: seq<JsonData>, idx: seq<nat>)
    requires Embeds(a, b, idx) && StrictlyByDate(b)
    ensures StrictlyByDate(a)
  {
  }

  // ---------------------------------------------------------------
  // add_record_to_archive
  // ---------------------------------------------------------------

  /** The version list after adding `v`: sorted, then filtered. */
  function NewVersions(vs: seq<JsonData>, v: JsonData): (r: seq<JsonData>)
    ensures |r| > 0
  {
    Filtered(SortByDate(vs + [v]))
  }

  /** The header update from the newest version, or `None` when Python raises
    * because that version lacks `u_date`, `c_date` or `sup`, or flags a data
    * error without its messages. */
  function FromNewest(a: ArchiveData): Option<ArchiveData>
    requires |a.versions| > 0
  {
    var last := a.versions[|a.versions| - 1];
    if last.uDate.None? || last.cDate.None? || last.sup.None? then None
    else if last.dataError == Some(true) && last.dataErrorMessages.None? then None
    else
      var b := a.(uDate := last.uDate.value, cDate := last.cDate.value, pDate := last.pDate,
                  sup := last.sup.value);
      if last.dataError == Some(true) then
        Some(b.(dataError := Some(true), dataErrorMessages := last.dataErrorMessages))
      else if a.dataError.Some? then Some(b.(dataError := None, dataErrorMessages := None))
      else Some(b)
  }

  /** `add_record_to_archive(r)`: `None` when Python raises. */
  function AddedToArchive(a: ArchiveData, r: JsonRecord): Option<ArchiveData>
  {
    if r.data.pDate in PDates(a.versions) then Some(a)
    else FromNewest(a.(versions := NewVersions(a.versions, r.data)))
  }

  /** A well-formed archive: at least one version, dates strictly increasing,
    * and the header's `p_date` that of the newest version. */
  predicate ValidArchive(a: ArchiveData)
  {
    |a.versions| > 0 && StrictlyByDate(a.versions) && a.pDate == a.versions[|a.versions| - 1].pDate
  }

  /** `to_archive` yields a well-formed archive holding the record as its only version. */
  lemma ToArchiveContract(r: JsonRecord)
    ensures ToArchive(r).Some? <==> r.data.cDate.Some? && r.data.uDate.Some? && r.data.sup.Some?
    ensures ToArchive(r).Some? ==>
              (ValidArchive(ToArchive(r).value) &&
               ToArchive(r).value.versions == [r.data] &&
               ToArchive(r).value.mmsId == r.data.mmsId &&
               ToArchive(r).value.deleted == r.deleted &&
               (ToArchive(r).value.dataError == Some(true) <==> r.dataError))
  {
  }

  /** The header after `FromNewest` mirrors the newest version. */
  lemma FromNewestContract(a: ArchiveData)
    requires |a.versions| > 0 && StrictlyByDate(a.versions)
    ensures FromNewest(a).Some? ==>
              var b := FromNewest(a).value;
              var last := a.versions[|a.versions| - 1];
              ValidArchive(b) && b.versions == a.versions &&
              Some(b.uDate) == last.uDate && Some(b.cDate) == last.cDate && Some(b.sup) == last.sup &&
              (b.dataError == Some(true) <==> last.dataError == Some(true)) &&
              (last.dataError == Some(true) ==> b.dataErrorMessages == last.dataErrorMessages) &&
              b.mmsId == a.mmsId && b.deleted == a.deleted
    ensures FromNewest(a).None? <==>
              var last := a.versions[|a.versions| - 1];
              last.uDate.None? || last.cDate.None? || last.sup.None? ||
              (last.dataError == Some(true) && last.dataErrorMessages.None?)
  {
  }

  /** Adding a version with a new date to a list with strictly increasing dates
    * keeps the dates strictly increasing. */
  lemma NewVersionsStrict(vs: seq<JsonData>, v: JsonData)
    requires StrictlyByDate(vs) && v.pDate !in PDates(vs)
    ensures StrictlyByDate(NewVersions(vs, v))
    ensures SortByDate(vs + [v]) == InsertByDate(v, vs)
  {
    var all := vs + [v];
    assert all[..|all| - 1] == vs;
    SortSorted(vs);
    InsertStrict(v, vs);
    FilteredContract(SortByDate(all));
    EmbedsStrict(NewVersions(vs, v), SortByDate(all), FilterIndices(SortByDate(all)));
  }

  /** What `add_record_to_archive` promises: a version whose `p_date` is
    * already archived changes nothing; otherwise the version is added (sorted,
    * then filtered) and the archive stays well formed. */
  lemma AddedToArchiveContract(a: ArchiveData, r: JsonRecord)
    requires ValidArchive(a)
    ensures r.data.pDate in PDates(a.versions) ==> AddedToArchive(a, r) == Some(a)
    ensures AddedToArchive(a, r).Some? ==> ValidArchive(AddedToArchive(a, r).value)
    ensures AddedToArchive(a, r).Some? ==>
              AddedToArchive(a, r).value.mmsId == a.mmsId && AddedToArchive(a, r).value.deleted == a.deleted
    ensures AddedToArchive(a, r).Some? && r.data.pDate !in PDates(a.versions) ==>
              AddedToArchive(a, r).value.versions == Filtered(InsertByDate(r.data, a.versions))
    ensures r.data.pDate !in PDates(a.versions) && |a.versions| < 4 && AddedToArchive(a, r).Some? ==>
              |AddedToArchive(a, r).value.versions| == |a.versions| + 1
  {
    if r.data.pDate !in PDates(a.versions) {
      NewVersionsStrict(a.versions, r.data);
      FromNewestContract(a.(versions := NewVersions(a.versions, r.data)));
      FilteredContract(InsertByDate(r.data, a.versions));
    }
  }

  /** A version newer than the newest of a list with increasing dates has a new date. */
  lemma NewerIsNew(vs: seq<JsonData>, v: JsonData)
    requires |vs| > 0 && StrictlyByDate(vs) && v.pDate > vs[|vs| - 1].pDate
    ensures v.pDate !in PDates(vs)
  {
    forall k | 0 <= k < |vs| ensures PDates(vs)[k] != v.pDate {
      if k < |vs| - 1 {
        assert vs[k].pDate < vs[|vs| - 1].pDate;
      }
    }
  }

  /** Appending a version newer than the newest keeps the list sorted. */
  lemma SortAppendNewest(vs: seq<JsonData>, v: JsonData)
    requires |vs| > 0 && StrictlyByDate(vs) && v.pDate > vs[|vs| - 1].pDate
    ensures SortByDate(vs + [v]) == vs + [v]
  {
    var all := vs + [v];
    forall i, j | 0 <= i < j < |all| ensures all[i].pDate <= all[j].pDate {
      if j == |vs| && i < |vs| - 1 {
        assert vs[i].pDate < vs[|vs| - 1].pDate;
      }
    }
    SortSorted(all);
  }

  /** A version newer than every version of the list ends up last. */
  lemma NewestKept(vs: seq<JsonData>, v: JsonData)
    requires |vs| > 0 && StrictlyByDate(vs) && v.pDate > vs[|vs| - 1].pDate
    ensures var f := NewVersions(vs, v); f[|f| - 1] == v
  {
    var all := vs + [v];
    SortAppendNewest(vs, v);
    FilteredShape(all);
    var f := Filtered(all);
    if |all| >= 3 {
      assert f[|f| - 1] == f[|f| - 3..][2] == all[|all| - 3..][2];
    }
  }

  /** Archiving a version newer than every archived one makes it the newest
    * version and the header's `p_date`; archiving it again changes nothing. */
  lemma ArchiveNewest(a: ArchiveData, r: JsonRecord)
    requires ValidArchive(a) && r.data.pDate > a.pDate && AddedToArchive(a, r).Some?
    ensures var b := AddedToArchive(a, r).value;
            b.versions[|b.versions| - 1] == r.data && b.pDate == r.data.pDate &&
            AddedToArchive(b, r) == Some(b)
  {
    NewerIsNew(a.versions, r.data);
    NewestKept(a.versions, r.data);
    var f := NewVersions(a.versions, r.data);
    NewVersionsStrict(a.versions, r.data);
    FromNewestContract(a.(versions := f));
    var b := AddedToArchive(a, r).value;
    assert PDates(b.versions)[|f| - 1] == r.data.pDate;
  }

  // ---------------------------------------------------------------
  // Archiving the same version twice
  // ---------------------------------------------------------------

  /** The indices the pass keeps are indices the keep rule accepts. */
  lemma {:induction false} KeptIndicesKeep(ys: seq<int>, i: nat)
    requires i <= |ys|
    ensures forall k :: k in KeptIndices(ys, i) ==> k < i && Keep(ys, k)
  {
    if i > 0 {
      KeptIndicesKeep(ys, i - 1);
    }
  }

  /** A pass whose keep rule accepts every version keeps them all. */
  lemma {:induction false} PassAllKept(vs: seq<JsonData>, ys: seq<int>, i: nat)
    requires |ys| == |vs| && i <= |vs|
    requires forall k :: 0 <= k < i ==> Keep(ys, k)
    ensures PassKept(vs, ys, i) == vs[..i]
  {
    if i > 0 {
      PassAllKept(vs, ys, i - 1);
      assert vs[..i] == vs[..i - 1] + [vs[i - 1]];
    }
  }

  /** From four versions on, `filter_versions` keeps what the pass keeps. */
  lemma FilteredIsPass(vs: seq<JsonData>)
    requires |vs| >= 4
    ensures Filtered(vs) == PassKept(vs, YearsSeq(vs), |vs|)
  {
    var ys := YearsSeq(vs);
    PassKeptSelects(vs, ys, |vs|);
    if |vs| == 4 {
      FilteredShape(vs);
      PassAllKept(vs, ys, 4);
      assert vs[..4] == vs;
    }
  }

  /** A value not met before index `idx[j]` is not met before position `j`
    * of the values read at the increasing indices `idx`. */
  lemma SelectedFirst(ys: seq<int>, idx: seq<nat>, j: nat)
    requires forall k :: 0 <= k < |idx| ==> idx[k] < |ys|
    requires forall k, l :: 0 <= k < l < |idx| ==> idx[k] < idx[l]
    requires j < |idx| && ys[idx[j]] !in ys[..idx[j]]
    ensures Select(ys, idx)[j] !in Select(ys, idx)[..j]
  {
    var s := Select(ys, idx);
    forall m | 0 <= m < j ensures s[..j][m] != s[j] {
      assert s[m] == ys[..idx[j]][idx[m]];
    }
  }

  /** Past four kept versions, the keep rule accepts each of them again: the
    * first and the last three stay where they are, and every other one is
    * the first of its year. */
  lemma FilteredKeepsAll(vs: seq<JsonData>)
    requires |vs| > 4
    ensures forall j :: 0 <= j < |Filtered(vs)| ==> Keep(YearsSeq(Filtered(vs)), j)
  {
    var ys := YearsSeq(vs);
    var idx := KeptIndices(ys, |vs|);
    var f := Filtered(vs);
    var fys := Select(ys, idx);
    assert YearsSeq(f) == fys by {
      YearsSelect(vs, idx);
    }
    KeptIndicesKeep(ys, |vs|);
    KeptTail(ys);
    forall j | 0 < j < |f| - 3 ensures fys[j] !in fys[..j] {
      assert idx[j] in idx;
      assert 0 < idx[j] < |vs| - 3;
      SelectedFirst(ys, idx, j);
    }
  }

  /** Filtering a filtered list keeps all of it. */
  lemma FilteredIdempotent(vs: seq<JsonData>)
    ensures Filtered(Filtered(vs)) == Filtered(vs)
  {
    var f := Filtered(vs);
    FilteredShape(vs);
    FilteredShape(f);
    if |f| > 4 {
      FilteredKeepsAll(vs);
      assert Filtered(f) == PassKept(f, YearsSeq(f), |f|) by {
        FilteredIsPass(f);
      }
      PassAllKept(f, YearsSeq(f), |f|);
      assert f[..|f|] == f;
    }
  }

  /** Version `p` is one the filter drops: neither the first nor one of the
    * last three, and its year already met. */
  predicate Dropped(ys: seq<int>, p: nat)
  {
    0 < p < |ys| - 3 && ys[p] in ys[..p]
  }

  /** Once a dropped version is removed, every other version meets the keep
    * rule exactly when it did before. */
  lemma KeepShift(ys: seq<int>, p: nat, yc: seq<int>)
    requires Dropped(ys, p) && yc == ys[..p] + ys[p + 1..]
    ensures forall k :: 0 <= k < p ==> (Keep(yc, k) <==> Keep(ys, k))
    ensures forall k :: p <= k < |yc| ==> (Keep(yc, k) <==> Keep(ys, k + 1))
  {
    forall k | 0 <= k < p ensures Keep(yc, k) <==> Keep(ys, k) {
      assert yc[..k] == ys[..k];
    }
    forall k | p <= k < |yc| ensures Keep(yc, k) <==> Keep(ys, k + 1) {
      assert ys[..k + 1] == ys[..p] + [ys[p]] + ys[p + 1..k + 1];
      assert yc[..k] == ys[..p] + ys[p + 1..k + 1];
    }
  }

  /** Up to a dropped version, the pass runs alike with or without it. */
  lemma {:induction false} PassBefore(b: seq<JsonData>, ys: seq<int>, p: nat, i: nat)
    requires |ys| == |b| && Dropped(ys, p) && i <= p
    ensures PassKept(b[..p] + b[p + 1..], ys[..p] + ys[p + 1..], i) == PassKept(b, ys, i)
  {
    if i > 0 {
      var c, yc := b[..p] + b[p + 1..], ys[..p] + ys[p + 1..];
      PassBefore(b, ys, p, i - 1);
      KeepShift(ys, p, yc);
      assert Keep(yc, i - 1) == Keep(ys, i - 1);
      assert c[i - 1] == b[i - 1];
      assert PassKept(c, yc, i) == PassKept(c, yc, i - 1) + (if Keep(yc, i - 1) then [c[i - 1]] else []);
    }
  }

  /** Past a dropped version, the pass with it is one step ahead of the pass
    * without it and has kept the same versions. */
  lemma {:induction false} PassAfter(b: seq<JsonData>, ys: seq<int>, p: nat, i: nat)
    requires |ys| == |b| && Dropped(ys, p) && p < i <= |b|
    ensures PassKept(b, ys, i) == PassKept(b[..p] + b[p + 1..], ys[..p] + ys[p + 1..], i - 1)
    decreases i
  {
    var c, yc := b[..p] + b[p + 1..], ys[..p] + ys[p + 1..];
    if i == p + 1 {
      assert !Keep(ys, p);
      assert PassKept(b, ys, i) == PassKept(b, ys, p);
      PassBefore(b, ys, p, p);
    } else {
      PassAfter(b, ys, p, i - 1);
      KeepShift(ys, p, yc);
      assert Keep(yc, i - 2) == Keep(ys, i - 1);
      assert c[i - 2] == b[i - 1];
      assert PassKept(c, yc, i - 1) == PassKept(c, yc, i - 2) + (if Keep(yc, i - 2) then [c[i - 2]] else []);
    }
  }

  /** The whole pass with a dropped version keeps what the whole pass
    * without it keeps. */
  lemma PassWhole(b: seq<JsonData>, ys: seq<int>, p: nat)
    requires |ys| == |b| && Dropped(ys, p)
    ensures var c, yc := b[..p] + b[p + 1..], ys[..p] + ys[p + 1..];
            PassKept(b, ys, |b|) == PassKept(c, yc, |c|)
  {
    var c := b[..p] + b[p + 1..];
    assert |c| == |b| - 1;
    PassAfter(b, ys, p, |b|);
  }

  /** The years of a list with one version removed. */
  lemma YearsRemoved(b: seq<JsonData>, p: nat)
    requires p < |b|
    ensures YearsSeq(b[..p] + b[p + 1..]) == YearsSeq(b)[..p] + YearsSeq(b)[p + 1..]
  {
    var c := b[..p] + b[p + 1..];
    var ys := YearsSeq(b);
    var yc, r := YearsSeq(c), ys[..p] + ys[p + 1..];
    assert |yc| == |r| == |b| - 1;
    forall k | 0 <= k < |r| ensures yc[k] == r[k] {
      if k < p {
        assert c[k] == b[k] && r[k] == ys[k];
      } else {
        assert c[k] == b[k + 1] && r[k] == ys[k + 1];
      }
    }
    SameElements(yc, r);
  }

  /** Sequences of one length that agree at every index are equal. */
  lemma SameElements<T>(s: seq<T>, t: seq<T>)
    requires |s| == |t| && forall k :: 0 <= k < |s| ==> s[k] == t[k]
    ensures s == t
  {
  }

  /** Removing a version the filter drops does not change what it keeps. */
  lemma DropInvariant(b: seq<JsonData>, p: nat)
    requires Dropped(YearsSeq(b), p)
    ensures Filtered(b) == Filtered(b[..p] + b[p + 1..])
  {
    var c := b[..p] + b[p + 1..];
    var ys := YearsSeq(b);
    var yc := ys[..p] + ys[p + 1..];
    assert Filtered(b) == PassKept(b, ys, |b|) by {
      FilteredIsPass(b);
    }
    assert PassKept(b, ys, |b|) == PassKept(c, yc, |c|) by {
      PassWhole(b, ys, p);
    }
    assert Filtered(c) == PassKept(c, yc, |c|) by {
      YearsRemoved(b, p);
      FilteredIsPass(c);
    }
  }

  /** Where `InsertByDate` places a version: somewhere in the list, the rest
    * of the list in order around it. */
  lemma {:induction false} InsertSplit(x: JsonData, vs: seq<JsonData>) returns (q: nat)
    requires SortedByDate(vs)
    ensures q <= |vs| && InsertByDate(x, vs) == vs[..q] + [x] + vs[q..]
  {
    if |vs| == 0 || x.pDate < vs[0].pDate {
      q := 0;
      assert vs[..0] + [x] + vs[0..] == [x] + vs;
    } else {
      var rest := vs[1..];
      var q1 := InsertSplit(x, rest);
      q := q1 + 1;
      assert InsertByDate(x, vs) == [vs[0]] + InsertByDate(x, rest);
      assert [vs[0]] + rest[..q1] == vs[..q];
      assert rest[q1..] == vs[q..];
    }
  }

  /** Around the inserted version, the versions before it are not later and
    * those after it not earlier. */
  lemma SplitBounds(x: JsonData, vs: seq<JsonData>, q: nat)
    requires SortedByDate(vs) && q <= |vs| && InsertByDate(x, vs) == vs[..q] + [x] + vs[q..]
    ensures forall k :: 0 <= k < q ==> vs[k].pDate <= x.pDate
    ensures forall k :: q <= k < |vs| ==> x.pDate <= vs[k].pDate
  {
    var all := InsertByDate(x, vs);
    assert all[q] == x;
    forall k | 0 <= k < q ensures vs[k].pDate <= x.pDate {
      assert all[k] == vs[k];
    }
    forall k | q <= k < |vs| ensures x.pDate <= vs[k].pDate {
      assert all[k + 1] == vs[k];
    }
  }

  /** A version the filter leaves out is at a dropped position. */
  lemma DroppedPosition(all: seq<JsonData>, p: nat)
    requires p < |all| && all[p] !in Filtered(all)
    ensures Dropped(YearsSeq(all), p)
  {
    var ys := YearsSeq(all);
    var f := Filtered(all);
    FilteredContract(all);
    assert all[0] == f[0] && f[0] in f;
    assert p != 0;
    assert |all| >= 3;
    forall k | |all| - 3 <= k < |all|
      ensures all[k] in f
    {
      assert all[k] == all[|all| - 3..][k - (|all| - 3)] == f[|f| - 3..][k - (|all| - 3)];
    }
    assert p < |all| - 3;
  }

  /** A version at a dropped position, put back among the versions the
    * filter kept, is at a dropped position there too: the first version and
    * the last three were kept around it, and so was the first version of its
    * year, before it. */
  lemma ReinsertDropped(all: seq<JsonData>, p: nat, f: seq<JsonData>, q: nat, all2: seq<JsonData>)
    requires StrictlyByDate(all) && p < |all| && Dropped(YearsSeq(all), p) && f == Filtered(all)
    requires q <= |f| && all2 == f[..q] + [all[p]] + f[q..]
    requires forall k :: 0 <= k < q ==> f[k].pDate <= all[p].pDate
    requires forall k :: q <= k < |f| ==> all[p].pDate <= f[k].pDate
    ensures Dropped(YearsSeq(all2), q)
  {
    FilteredShape(all);
    assert f[0] == all[0] && all[0].pDate < all[p].pDate;
    assert q != 0;
    assert f[|f| - 3] == f[|f| - 3..][0] == all[|all| - 3..][0] == all[|all| - 3];
    assert all[p].pDate < all[|all| - 3].pDate;
    assert q <= |f| - 3;
    var j := KeptEarlierOfYear(all, p, f);
    assert j < q;
    InsertedAt(f, all[p], q, j);
    EarlierSameYear(all2, j, q);
  }

  /** A version at a dropped position has an earlier version of its year
    * that the filter kept: the first of that year. */
  lemma KeptEarlierOfYear(all: seq<JsonData>, p: nat, f: seq<JsonData>) returns (j: nat)
    requires StrictlyByDate(all) && p < |all| && Dropped(YearsSeq(all), p) && f == Filtered(all)
    ensures j < |f| && f[j].pDate < all[p].pDate && Year(f[j].pDate) == Year(all[p].pDate)
  {
    var ys := YearsSeq(all);
    var m :| 0 <= m < p && ys[..p][m] == ys[p];
    var m0 := FirstOccurrence(ys, m);
    assert all[m0] in f by {
      FilteredYears(all);
    }
    j :| 0 <= j < |f| && f[j] == all[m0];
    assert ys[m0] == ys[m] == ys[p];
  }

  /** Reading a list with an element inserted at `q`, before and at `q`. */
  lemma InsertedAt<T>(f: seq<T>, x: T, q: nat, j: nat)
    requires j < q <= |f|
    ensures var g := f[..q] + [x] + f[q..]; g[j] == f[j] && g[q] == x
  {
    var g := f[..q] + [x] + f[q..];
    assert g[j] == f[..q][j];
  }

  /** A version with the year of an earlier one is not the first of its year. */
  lemma EarlierSameYear(vs: seq<JsonData>, j: nat, q: nat)
    requires j < q < |vs| && Year(vs[j].pDate) == Year(vs[q].pDate)
    ensures YearsSeq(vs)[q] in YearsSeq(vs)[..q]
  {
    var ys := YearsSeq(vs);
    assert ys[..q][j] == ys[q];
  }

  /** Removing an element inserted at `q` gives the list back. */
  lemma RemoveInserted<T>(f: seq<T>, x: T, q: nat)
    requires q <= |f|
    ensures var g := f[..q] + [x] + f[q..]; g[..q] + g[q + 1..] == f
  {
    var g := f[..q] + [x] + f[q..];
    assert g[..q] == f[..q];
    assert g[q + 1..] == f[q..];
  }

  /** A version the filter dropped when it was added is dropped again when
    * it is added to the filtered list, which then stays as it is. */
  lemma DroppedStaysDropped(vs: seq<JsonData>, x: JsonData)
    requires StrictlyByDate(vs) && x.pDate !in PDates(vs)
    requires x !in Filtered(InsertByDate(x, vs))
    ensures var f := Filtered(InsertByDate(x, vs));
            SortedByDate(f) && Filtered(InsertByDate(x, f)) == f
  {
    var all := InsertByDate(x, vs);
    InsertStrict(x, vs);
    var p := InsertSplit(x, vs);
    assert all[p] == x;
    DroppedPosition(all, p);
    var f := Filtered(all);
    assert StrictlyByDate(f) by {
      FilteredShape(all);
      EmbedsStrict(f, all, FilterIndices(all));
    }
    var q := InsertSplit(x, f);
    SplitBounds(x, f, q);
    var all2 := InsertByDate(x, f);
    ReinsertDropped(all, p, f, q, all2);
    assert Filtered(all2) == Filtered(f) by {
      DropInvariant(all2, q);
      RemoveInserted(f, x, q);
    }
    FilteredIdempotent(all);
  }

  /** The header taken from the newest version is already in place. */
  lemma FromNewestSettled(a: ArchiveData)
    requires |a.versions| > 0 && FromNewest(a).Some?
    ensures FromNewest(FromNewest(a).value) == FromNewest(a)
  {
  }

  /** `add_record_to_archive` is idempotent: adding the same version again,
    * whether it was kept, newest, older or dropped by the filter, leaves the
    * archive as the first addition made it. */
  lemma AddedTwice(a: ArchiveData, r: JsonRecord)
    requires ValidArchive(a) && AddedToArchive(a, r).Some?
    ensures AddedToArchive(AddedToArchive(a, r).value, r) == AddedToArchive(a, r)
  {
    var x := r.data;
    if x.pDate !in PDates(a.versions) {
      var f := NewVersions(a.versions, x);
      NewVersionsStrict(a.versions, x);
      FromNewestContract(a.(versions := f));
      var b := AddedToArchive(a, r).value;
      assert b.versions == f;
      if x.pDate !in PDates(f) {
        assert x !in f;
        DroppedStaysDropped(a.versions, x);
        NewVersionsStrict(f, x);
        assert NewVersions(b.versions, x) == f;
        assert b.(versions := f) == b;
        FromNewestSettled(a.(versions := f));
      }
    }
  }

  // ---------------------------------------------------------------
  // The archive object
  // ---------------------------------------------------------------

  /** `ArchiveJsonRecord`: an archive document and the `deleted` attribute. */
  class ArchiveJsonRecord {
    var data: ArchiveData
    var deleted: bool

    constructor (d: ArchiveData)
      ensures data == d && deleted == d.deleted
    {
      data := d;
      deleted := d.deleted;
    }

    /** `sort_versions`. */
    method SortVersions()
      modifies this
      ensures data == old(data).(versions := SortByDate(old(data).versions))
      ensures deleted == old(deleted)
    {
      data := data.(versions := SortByDate(data.versions));
    }

    /** `filter_versions`: up to four versions are left alone. */
    method FilterVersions()
      modifies this
      ensures data == old(data).(versions := Filtered(old(data).versions))
      ensures deleted == old(deleted)
    {
      var vs := data.versions;
      if |vs| <= 4 {
        FilteredShape(vs);
        return;
      }
      var kept := KeepVersions(vs);
      FilteredByPass(vs);
      data := data.(versions := kept);
    }

    /** The second half of `add_record_to_archive`: the header takes the
      * newest version's dates, `sup` and data-error flag; `raised` is
      * Python's `KeyError`. */
    method TakeHeaderFromNewest() returns (raised: bool)
      requires |data.versions| > 0
      modifies this
      ensures raised <==> FromNewest(old(data)).None?
      ensures !raised ==> data == FromNewest(old(data)).value
      ensures deleted == old(deleted)
    {
      var last := data.versions[|data.versions| - 1];
      if last.uDate.None? || last.cDate.None? || last.sup.None? {
        return true;
      }
      data := data.(uDate := last.uDate.value, cDate := last.cDate.value, pDate := last.pDate,
                    sup := last.sup.value);
      if last.dataError == Some(true) {
        if last.dataErrorMessages.None? {
          return true;
        }
        data := data.(dataError := Some(true), dataErrorMessages := last.dataErrorMessages);
      } else if data.dataError.Some? {
        data := data.(dataError := None, dataErrorMessages := None);
      }
      return false;
    }

    /** `add_record_to_archive`; `raised` is Python's `KeyError`. */
    method AddRecordToArchive(r: JsonRecord) returns (raised: bool)
      modifies this
      ensures raised <==> AddedToArchive(old(data), r).None?
      ensures !raised ==> data == AddedToArchive(old(data), r).value
      ensures deleted == old(deleted)
    {
      if r.data.pDate in PDates(data.versions) {
        return false;
      }
      data := data.(versions := data.versions + [r.data]);
      SortVersions();
      FilterVersions();
      raised := TakeHeaderFromNewest();
    }
  }
}
