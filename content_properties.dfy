/**
 * The derived properties of one file of a download, as the content directory
 * computes them on every call: creation date, category, manual tags,
 * per-mille completion and ETA. The download engine and the tag manager are
 * read-only inputs; every read of theirs that can throw is a Read value, and
 * the catch blocks of the source become explicit cases.
 */
module ContentProperties {
  import opened Common

  const LONG_MIN: int := -0x8000_0000_0000_0000
  const LONG_MAX: int := 0x7fff_ffff_ffff_ffff

  /** A Java long. */
  type Long = x: int | LONG_MIN <= x <= LONG_MAX

  /** The result of a read from the engine: a value, or an exception. */
  datatype Read<T> = Value(get: T) | Throws

  /** TagType.TT_DOWNLOAD_MANUAL, the classification of user-assigned tags. */
  const TT_DOWNLOAD_MANUAL: int := 3

  /** The category name the engine reports for a download with no category. */
  const UNCATEGORIZED: string := "Categories.uncategorized"

  /** A tag attached to a download: its tag type and its display name. */
  datatype Tag = Tag(tagType: int, displayName: string)

  /** DiskManagerFileInfo: one file of a download. */
  datatype FileInfo = FileInfo(length: Long, downloaded: Long, deleted: bool, skipped: bool)

  /** What the engine and the tag manager report about a download when a property is read. */
  datatype DownloadState = DownloadState(
    creationTime: Read<Long>,
    categoryName: Read<Option<string>>,
    tags: Read<seq<Tag>>,
    etaSecs: Read<Long>,
    files: seq<FileInfo>)

  /**
   * The property names a ContentFile knows (PT_DATE ... PT_ETA), and any
   * other name. OtherName stands only for a name different from those five.
   */
  datatype PropertyName = Date | Categories | Tags | PercentDone | Eta | OtherName(name: string)

  /** A property value: a Long object or a String[] array. */
  datatype PropertyValue = LongValue(n: int) | Strings(items: seq<string>)

  /** getDiskManagerFileInfo(index): no file outside the download's file list. */
  function FileAt(d: DownloadState, index: int): (f: Option<FileInfo>)
    ensures f.Some? <==> 0 <= index < |d.files|
    ensures f.Some? ==> f.value == d.files[index]
  {
    if 0 <= index < |d.files| then Some(d.files[index]) else None
  }

  // ---------------------------------------------------------------- categories

  function ToLowerAscii(c: char): char
  {
    if 'A' <= c <= 'Z' then (c as int + 32) as char else c
  }

  /** String.equalsIgnoreCase, restricted to ASCII case mapping. */
  predicate EqualsIgnoreCase(a: string, b: string)
  {
    |a| == |b| && forall i :: 0 <= i < |a| ==> ToLowerAscii(a[i]) == ToLowerAscii(b[i])
  }

  /** A category name that the directory reports as a real category. */
  predicate IsRealCategory(cat: string)
  {
    |cat| > 0 && !EqualsIgnoreCase(cat, UNCATEGORIZED)
  }

  /** PT_CATEGORIES: the category as a one-element array, or an empty array. */
  function CategoryList(file: Option<FileInfo>, cat: Read<Option<string>>): (r: seq<string>)
    ensures |r| <= 1
    ensures r != [] <==> file.Some? && cat.Value? && cat.get.Some? && IsRealCategory(cat.get.value)
    ensures r != [] ==> r == [cat.get.value]
  {
    if file.None? || cat.Throws? then []
    else match cat.get
      case None => []
      case Some(c) => if |c| > 0 && !EqualsIgnoreCase(c, UNCATEGORIZED) then [c] else []
  }

  // ---------------------------------------------------------------------- tags

  predicate IsManual(t: Tag)
  {
    t.tagType == TT_DOWNLOAD_MANUAL
  }

  /** Some manual tag in the list carries the display name n. */
  predicate HasManualName(tags: seq<Tag>, n: string)
  {
    exists i :: 0 <= i < |tags| && IsManual(tags[i]) && tags[i].displayName == n
  }

  /** The loop of PT_TAGS: add the name of every manual tag to a set, in list order. */
  function AddManualNames(tags: seq<Tag>, names: seq<string>): (r: seq<string>)
    ensures |names| <= |r| && r[..|names|] == names
  {
    if tags == [] then names
    else
      var names' := if IsManual(tags[0]) && tags[0].displayName !in names
                    then names + [tags[0].displayName] else names;
      var r := AddManualNames(tags[1..], names');
      assert r[..|names|] == r[..|names'|][..|names|];
      r
  }

  lemma {:induction false} AddManualNamesSpec(tags: seq<Tag>, names: seq<string>)
    requires NoDuplicates(names)
    ensures NoDuplicates(AddManualNames(tags, names))
    ensures forall n :: n in AddManualNames(tags, names) <==> n in names || HasManualName(tags, n)
  {
    if tags != [] {
      var names' := if IsManual(tags[0]) && tags[0].displayName !in names
                    then names + [tags[0].displayName] else names;
      AddManualNamesSpec(tags[1..], names');
      forall n ensures HasManualName(tags, n) <==> (IsManual(tags[0]) && tags[0].displayName == n) || HasManualName(tags[1..], n) {
        if HasManualName(tags, n) {
          var i :| 0 <= i < |tags| && IsManual(tags[i]) && tags[i].displayName == n;
          if i > 0 { assert tags[1..][i - 1] == tags[i]; }
        }
        if HasManualName(tags[1..], n) {
          var i :| 0 <= i < |tags[1..]| && IsManual(tags[1..][i]) && tags[1..][i].displayName == n;
          assert tags[i + 1] == tags[1..][i];
        }
      }
    }
  }

  /**
   * PT_TAGS: the display names of the manual tags, each exactly once; tags of
   * any other type are left out. The array the source returns comes from a
   * HashSet, so its order is not significant.
   */
  function ManualTagNames(tags: seq<Tag>): (r: seq<string>)
    ensures NoDuplicates(r)
    ensures forall n :: n in r <==> HasManualName(tags, n)
  {
    AddManualNamesSpec(tags, []);
    AddManualNames(tags, [])
  }

  // ------------------------------------------------------------ percent done

  function Abs(x: int): nat
  {
    if x < 0 then -x else x
  }

  /** Java's integer division, which truncates toward zero. */
  function JavaDiv(a: int, b: int): (q: int)
    requires b != 0
    ensures Abs(q) == Abs(a) / Abs(b)
    ensures q != 0 ==> (q < 0 <==> (a < 0) != (b < 0))
    ensures 0 <= a && 0 < b ==> q == a / b
  {
    var m := Abs(a) / Abs(b);
    QuotientOfNaturals(Abs(a), Abs(b));
    if (a < 0) == (b < 0) then m else -m
  }

  /** The quotient of two naturals is a natural. */
  lemma QuotientOfNaturals(n: nat, d: nat)
    requires d > 0
    ensures n / d >= 0
  {
  }

  /**
   * PT_PERCENT_DONE: completion in thousandths. A file of length 0 yields 100
   * (the code's constant), a complete non-empty file 1000.
   */
  function PercentDoneOf(f: FileInfo): (r: int)
    ensures f.length == 0 ==> r == 100
    ensures 0 <= f.downloaded <= f.length ==> 0 <= r <= 1000
    ensures 0 < f.length && f.downloaded == f.length ==> r == 1000
    ensures 0 < f.length && 0 <= f.downloaded ==> r == 1000 * f.downloaded / f.length
  {
    if f.length == 0 then 100
    else
      var r := JavaDiv(1000 * f.downloaded, f.length);
      PercentBound(f.downloaded, f.length);
      r
  }

  lemma PercentBound(downloaded: int, length: int)
    requires length != 0
    ensures 0 < length && 0 <= downloaded ==> JavaDiv(1000 * downloaded, length) == 1000 * downloaded / length
    ensures 0 <= downloaded <= length ==> 0 <= JavaDiv(1000 * downloaded, length) <= 1000
    ensures 0 < length == downloaded ==> JavaDiv(1000 * downloaded, length) == 1000
  {
    if 0 <= downloaded <= length {
      DivAtMost(1000 * downloaded, length, 1000);
    }
    if 0 < length == downloaded {
      DivExact(1000, length);
    }
  }

  lemma DivExact(c: int, b: int)
    requires 0 <= c && 0 < b
    ensures (c * b) / b == c
  {
    var q, m := (c * b) / b, (c * b) % b;
    assert c * b == q * b + m && 0 <= m < b;
    assert (c - q) * b == m;
    if c - q >= 1 {
      MulAtLeast(c - q, b);
    } else if c - q <= -1 {
      MulAtLeast(q - c, b);
    }
  }

  /** a <= c * b makes a / b at most c. */
  lemma DivAtMost(a: int, b: int, c: int)
    requires 0 <= a && 0 < b && 0 <= c && a <= c * b
    ensures 0 <= a / b <= c
  {
  }

  lemma MulAtLeast(x: int, b: int)
    requires 1 <= x && 0 < b
    ensures x * b >= b
  {
  }

  // ----------------------------------------------------------------------- ETA

  /**
   * getETA: seconds until the file is complete. Priority: a complete file is
   * 0 (even if deleted or skipped); then a deleted or skipped file, a
   * negative engine estimate, or any exception, are Long.MAX_VALUE; otherwise
   * the engine's estimate as it is. A missing file makes the first read
   * throw, which the catch block turns into Long.MAX_VALUE.
   */
  function FileEta(file: Option<FileInfo>, engineEta: Read<Long>): (r: Long)
    ensures 0 <= r
    ensures file.None? ==> r == LONG_MAX
    ensures file.Some? && file.value.downloaded == file.value.length ==> r == 0
    ensures (file.Some? && file.value.downloaded != file.value.length
             && (file.value.deleted || file.value.skipped)) ==> r == LONG_MAX
    ensures (file.Some? && file.value.downloaded != file.value.length
             && !file.value.deleted && !file.value.skipped) ==>
              && (engineEta.Throws? ==> r == LONG_MAX)
              && (engineEta.Value? && engineEta.get < 0 ==> r == LONG_MAX)
              && (engineEta.Value? && engineEta.get >= 0 ==> r == engineEta.get)
  {
    if file.None? then LONG_MAX
    else if file.value.downloaded == file.value.length then 0
    else if file.value.deleted || file.value.skipped then LONG_MAX
    else if engineEta.Throws? then LONG_MAX
    else if engineEta.get < 0 then LONG_MAX
    else engineEta.get
  }

  // -------------------------------------------------------------- getProperty

  /**
   * ContentFile.getProperty(name) for the file at index of a download in
   * state d. None is the null the source returns.
   */
  function FileProperty(d: DownloadState, index: int, name: PropertyName): (r: Option<PropertyValue>)
    ensures name.OtherName? ==> r == None
    ensures name == Categories ==> r == Some(Strings(CategoryList(FileAt(d, index), d.categoryName)))
    ensures name == Eta ==> r == Some(LongValue(FileEta(FileAt(d, index), d.etaSecs)))
    ensures name == Tags ==> (r.Some? <==> FileAt(d, index).Some? && d.tags.Value?)
    ensures name == Tags && r.Some? ==>
              r.value.Strings? && NoDuplicates(r.value.items)
              && forall n :: n in r.value.items <==> HasManualName(d.tags.get, n)
    ensures name == PercentDone ==> (r.Some? <==> FileAt(d, index).Some?)
    ensures name == PercentDone && r.Some? ==> r.value == LongValue(PercentDoneOf(d.files[index]))
    ensures name == Date ==> (r.Some? <==> FileAt(d, index).Some? && d.creationTime.Value?)
    ensures name == Date && r.Some? ==> r.value == LongValue(d.creationTime.get)
  {
    var file := FileAt(d, index);
    match name
    case Date =>
      if file.None? || d.creationTime.Throws? then None
      else Some(LongValue(d.creationTime.get))
    case Categories =>
      // a failure while reading the category is caught inside the branch
      Some(Strings(CategoryList(file, d.categoryName)))
    case Tags =>
      if file.None? || d.tags.Throws? then None
      else Some(Strings(ManualTagNames(d.tags.get)))
    case PercentDone =>
      if file.None? then None
      else Some(LongValue(PercentDoneOf(file.value)))
    case Eta =>
      // getETA catches its own exceptions, a missing file included
      Some(LongValue(FileEta(file, d.etaSecs)))
    case OtherName(_) => None
  }
}
