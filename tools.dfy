/**
 * Helpers of `oaiharvester/tools.py`: the free-space threshold, and which
 * harvest directory and which chunk files `update_db` reads. Directory
 * listings and the free space are parameters; `re.match` patterns are
 * written out as predicates (with the `$` rule of module `Text`).
 */
module Tools {
  import opened Wrappers
  import opened Text
  import opened Calendar

  const Gib: int := 1024 * 1024 * 1024

  /** Where chunks are harvested to. */
  const HarvestRoot: string := "harvested_data"

  // ---------------------------------------------------------------
  // check_free_space
  // ---------------------------------------------------------------

  /** The answer of `check_free_space` and whether it logged the low-space warning. */
  datatype SpaceCheck = SpaceCheck(enough: bool, warned: bool)

  /** `check_free_space` with `free` bytes free and limits in GiB. */
  function CheckFreeSpace(free: int, lowLimit: int, errorLimit: int): SpaceCheck
  {
    SpaceCheck(!(free < errorLimit * Gib), errorLimit * Gib < free < lowLimit * Gib)
  }

  /** The check fails exactly below the error limit; the warning is given only
    * strictly between the two limits, so never together with a failure, and
    * never when the low limit does not exceed the error limit. */
  lemma FreeSpaceContract(free: int, lowLimit: int, errorLimit: int)
    ensures var r := CheckFreeSpace(free, lowLimit, errorLimit);
            (r.enough <==> free >= errorLimit * Gib) &&
            (r.warned ==> r.enough && free < lowLimit * Gib) &&
            (lowLimit <= errorLimit ==> !r.warned) &&
            (free >= lowLimit * Gib ==> !r.warned)
  {
  }

  // ---------------------------------------------------------------
  // Name patterns
  // ---------------------------------------------------------------

  /** `OaiSet_<word>_<8 digits>`, the `\w+` being everything between. */
  predicate DirShape(s: string)
  {
    |s| >= 17 && StartsWith(s, "OaiSet_") && s[|s| - 9] == '_' &&
    AllWord(s[7..|s| - 9]) && AllDigits(s[|s| - 8..])
  }

  /** `re.match(r'^OaiSet_\w+_\d{8}$', s)` */
  predicate DirMatches(s: string)
  {
    DirShape(s) || (EndsWithNewline(s) && DirShape(Chomp(s)))
  }

  /** `chunk_<word>_<5 digits><any char but a newline>xml`: the `.` is not escaped. */
  predicate ChunkShape(s: string)
  {
    |s| >= 17 && StartsWith(s, "chunk_") && s[|s| - 10] == '_' &&
    AllWord(s[6..|s| - 10]) && AllDigits(s[|s| - 9..|s| - 4]) &&
    s[|s| - 4] != '\n' && s[|s| - 3..] == "xml"
  }

  /** `re.match(r'^chunk_\w+_\d{5}.xml$', s)` */
  predicate ChunkNameMatches(s: string)
  {
    ChunkShape(s) || (EndsWithNewline(s) && ChunkShape(Chomp(s)))
  }

  /** `os.path.basename`: what follows the last `/`. */
  function Basename(path: string): (r: string)
    ensures !Contains(path, "/") ==> r == path
  {
    var i := RFind(path, "/");
    path[i + 1..]
  }

  // ---------------------------------------------------------------
  // get_date_from_chunk_directory
  // ---------------------------------------------------------------

  /** The date written in a directory name that has the harvest shape. */
  function StampedDate(s: string): Date
    requires DirShape(s)
  {
    var digits := s[|s| - 8..];
    Date(DecimalValue(digits[..4]), DecimalValue(digits[4..6]), DecimalValue(digits[6..]))
  }

  /** `get_date_from_chunk_directory`; `None` is a raised exception: the
    * `AttributeError` of a name that does not match, or the `ValueError` of
    * a date that does not exist. */
  function DateFromDirectory(directory: string): Option<Date>
  {
    var name := Basename(directory);
    if !DirMatches(name) then None
    else
      var d := if DirShape(name) then StampedDate(name) else StampedDate(Chomp(name));
      if ValidDate(d) then Some(d) else None
  }

  // ---------------------------------------------------------------
  // Chunk lists
  // ---------------------------------------------------------------

  /** The paths `directory/f` of the listed names that match the chunk pattern,
    * in listing order. */
  function ChunkPaths(directory: string, names: seq<string>): (r: seq<string>)
    ensures |r| <= |names|
  {
    if |names| == 0 then []
    else
      var rest := ChunkPaths(directory, names[..|names| - 1]);
      var f := names[|names| - 1];
      if ChunkNameMatches(f) then rest + [directory + "/" + f] else rest
  }

  /** `get_chunk_list_from_directory` over the listing `names` of `directory`. */
  function ChunkListFromDirectory(directory: string, names: seq<string>): (r: seq<string>)
    ensures Sorted(r)
    ensures multiset(r) == multiset(ChunkPaths(directory, names))
  {
    SortStrings(ChunkPaths(directory, names))
  }

  /** A path is listed exactly when it is `directory/f` for a listed name `f`
    * matching the chunk pattern. */
  lemma {:induction false} ChunkPathsMembers(directory: string, names: seq<string>, p: string)
    ensures p in ChunkPaths(directory, names) <==>
            exists k :: 0 <= k < |names| && ChunkNameMatches(names[k]) && p == directory + "/" + names[k]
  {
    if |names| > 0 {
      var init := names[..|names| - 1];
      ChunkPathsMembers(directory, init, p);
      assert forall k :: 0 <= k < |init| ==> init[k] == names[k];
    }
  }

  /** `get_chunk_list_from_directory`: sorted ascending, no longer than the
    * listing, and holding exactly the matching names of the listing, prefixed
    * by the directory (how often each occurs is stated on
    * `ChunkListFromDirectory` itself). */
  lemma ChunkListContract(directory: string, names: seq<string>, p: string)
    ensures var r := ChunkListFromDirectory(directory, names);
            Sorted(r) && |r| <= |names| &&
            (p in r <==> exists k :: 0 <= k < |names| && ChunkNameMatches(names[k]) && p == directory + "/" + names[k])
  {
    var paths := ChunkPaths(directory, names);
    var r := ChunkListFromDirectory(directory, names);
    ChunkPathsMembers(directory, names, p);
    assert p in r <==> p in multiset(r);
    assert p in paths <==> p in multiset(paths);
    assert |r| == |multiset(r)| == |multiset(paths)| == |paths|;
  }

  // ---------------------------------------------------------------
  // get_newest_chunks_list
  // ---------------------------------------------------------------

  /** The listed directories that match the harvest pattern, in listing order. */
  function HarvestDirs(names: seq<string>): (r: seq<string>)
    ensures forall x :: x in r <==> x in names && DirMatches(x)
    ensures (forall x :: x in names ==> !DirMatches(x)) ==> r == []
  {
    if |names| == 0 then []
    else
      var rest := HarvestDirs(names[..|names| - 1]);
      var d := names[|names| - 1];
      assert forall x :: x in names <==> x in names[..|names| - 1] || x == d;
      if DirMatches(d) then rest + [d] else rest
  }

  /** `get_newest_chunks_list`: `dirs` lists `harvested_data`, `listing` gives
    * each directory's names, `today` is a day number. `None` is an exception:
    * an impossible date in the newest directory's name, or the
    * `OverflowError` of adding four days to a date past 9999-12-27. */
  function NewestChunksList(dirs: seq<string>, listing: string -> seq<string>, today: int): Option<seq<string>>
  {
    var ds := HarvestDirs(dirs);
    if |ds| == 0 then Some([])
    else
      var newest := Greatest(ds);
      var date := DateFromDirectory(newest);
      if date.None? then None
      else if !ShiftFits(date.value) then None
      else if DayNumber(date.value) + 4 < today then Some([])
      else Some(ChunkListFromDirectory(HarvestRoot + "/" + newest, listing(newest)))
  }

  /** `d` is the lexicographically greatest listed directory matching the
    * harvest pattern. */
  predicate IsNewest(dirs: seq<string>, d: string)
  {
    d in dirs && DirMatches(d) && forall x :: x in dirs && DirMatches(x) ==> LexLe(x, d)
  }

  /** The newest directory, when there is one, is the one chosen. */
  lemma NewestChosen(dirs: seq<string>, d: string)
    requires IsNewest(dirs, d)
    ensures |HarvestDirs(dirs)| > 0 && Greatest(HarvestDirs(dirs)) == d
  {
    var ds := HarvestDirs(dirs);
    assert d in ds;
    var g := Greatest(ds);
    LexLeAntisym(d, g);
  }

  /** The newest directory's date plus four days exists: it is not past
    * Python's `date.max`. */
  predicate ShiftFits(date: Date)
  {
    DayNumber(date) + 4 <= DayNumber(MaxDate)
  }

  /** Without a matching directory the list is empty. Otherwise the newest
    * matching directory is chosen: an impossible date in its name, or one
    * too close to `date.max` to add four days, raises; when its date is more
    * than four days before `today` the list is empty, and else it is the
    * sorted chunk list of that directory. */
  lemma NewestChunksContract(dirs: seq<string>, listing: string -> seq<string>, today: int, d: string)
    ensures var r := NewestChunksList(dirs, listing, today);
            ((forall x :: x in dirs ==> !DirMatches(x)) ==> r == Some([])) &&
            (IsNewest(dirs, d) && DateFromDirectory(d).Some? && ShiftFits(DateFromDirectory(d).value) ==>
               (DayNumber(DateFromDirectory(d).value) + 4 < today ==> r == Some([])) &&
               (DayNumber(DateFromDirectory(d).value) + 4 >= today ==>
                  r == Some(ChunkListFromDirectory(HarvestRoot + "/" + d, listing(d))))) &&
            (IsNewest(dirs, d) && (DateFromDirectory(d).None? || !ShiftFits(DateFromDirectory(d).value)) ==> r.None?)
  {
    if IsNewest(dirs, d) {
      NewestChosen(dirs, d);
    }
  }

  /** Four days can be added to a date up to 9999-12-27 and to none after
    * it, so directories stamped 9999-12-28 to 9999-12-31 make the selection
    * raise. */
  lemma ShiftWindow(d: Date)
    requires ValidDate(d)
    ensures ShiftFits(d) <==> d.year < 9999 || d.month < 12 || d.day <= 27
  {
  }

  /** A non-empty chunk list comes from a matching directory that is the newest. */
  lemma NewestChunksSource(dirs: seq<string>, listing: string -> seq<string>, today: int)
    requires NewestChunksList(dirs, listing, today).Some? && NewestChunksList(dirs, listing, today).value != []
    ensures exists d :: IsNewest(dirs, d) && DateFromDirectory(d).Some? && ShiftFits(DateFromDirectory(d).value) &&
                        DayNumber(DateFromDirectory(d).value) + 4 >= today
  {
    var g := Greatest(HarvestDirs(dirs));
    assert IsNewest(dirs, g);
  }
}
