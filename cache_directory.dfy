/** The cache directory: which entry names the guard accepts, when the cache is usable,
    and the part of the file system the cacher touches. */
module CacheDirectory {
  import opened Errors
  import opened Descriptors

  /** The type-system descriptor that must sit beside the cached CASes. */
  const TypesystemName: string := "typesystem.xml"

  predicate EndsWith(s: string, suffix: string) {
    |suffix| <= |s| && s[|s| - |suffix|..] == suffix
  }

  /** The characters that `.` in a java.util.regex pattern does not match. */
  predicate IsLineTerminator(c: char) {
    c == '\n' || c == '\r' || c == '\U{85}' || c == '\U{2028}' || c == '\U{2029}'
  }

  /** Whether the whole of `name` matches `.*(xmi|xml)$`: it ends in "xmi" or "xml" and the
      part before that suffix holds no line terminator. */
  predicate IsCacheArtifact(name: string) {
    && (EndsWith(name, "xmi") || EndsWith(name, "xml"))
    && forall i :: 0 <= i < |name| - 3 ==> !IsLineTerminator(name[i])
  }

  /** Whether `name` carries the extension ".xmi" (case-sensitive). */
  predicate IsXmiFile(name: string) {
    EndsWith(name, ".xmi")
  }

  /** The entries the guard's regular-expression filter lists. */
  function CachedFiles(entries: set<string>): set<string> {
    set e | e in entries && IsCacheArtifact(e)
  }

  /** The entries that pollute the directory. */
  function OffendingFiles(entries: set<string>): set<string> {
    set e | e in entries && !IsCacheArtifact(e)
  }

  /** What the guard promises about a listing: it passes when every entry is a cache
      artifact and otherwise fails naming the number of entries that are not. */
  function PollutionVerdict(entries: set<string>): (o: Outcome)
    ensures o.Pass? <==> forall e :: e in entries ==> IsCacheArtifact(e)
    ensures o.Fail? ==> o.error.offendingFiles > 0
  {
    var offending := OffendingFiles(entries);
    assert forall e :: e in entries && !IsCacheArtifact(e) ==> e in offending;
    if offending == {} then Pass else Fail(PollutedCache(|offending|))
  }

  /** The guard counts the whole listing and the filtered listing; their difference is
      exactly the number of offending entries. */
  lemma ListingSplits(entries: set<string>)
    ensures |entries| == |CachedFiles(entries)| + |OffendingFiles(entries)|
  {
    assert entries == CachedFiles(entries) + OffendingFiles(entries);
    assert CachedFiles(entries) * OffendingFiles(entries) == {};
  }

  /** Comparing the two counts, as the guard does, decides the verdict: it fails exactly
      when the filtered listing is shorter, and reports the difference. */
  lemma VerdictFromCounts(entries: set<string>)
    ensures PollutionVerdict(entries).Fail? <==> |entries| > |CachedFiles(entries)|
    ensures PollutionVerdict(entries).Fail? ==>
              PollutionVerdict(entries).error.offendingFiles == |entries| - |CachedFiles(entries)|
  {
    ListingSplits(entries);
  }

  /** Cache artifacts added beside a polluting entry do not hide it: the verdict, and the
      count it reports, stay the same. */
  lemma ArtifactsDoNotMaskPollution(entries: set<string>, artifacts: set<string>)
    requires forall e :: e in artifacts ==> IsCacheArtifact(e)
    ensures PollutionVerdict(entries + artifacts) == PollutionVerdict(entries)
  {
    assert OffendingFiles(entries + artifacts) == OffendingFiles(entries);
  }

  /** The entries that FileUtils.listFiles(dir, {"xmi"}, false) returns. */
  function XmiFiles(entries: set<string>): set<string> {
    set e | e in entries && IsXmiFile(e)
  }

  /** The cache-state detector: the cache is usable when the type system is present and
      the non-recursive ".xmi" listing is not empty. */
  function IsUsableCache(entries: set<string>): (usable: bool)
    ensures usable <==> TypesystemName in entries && exists e :: e in entries && IsXmiFile(e)
  {
    assert forall e :: e in entries && IsXmiFile(e) ==> e in XmiFiles(entries);
    TypesystemName in entries && XmiFiles(entries) != {}
  }

  /** An empty directory, such as one just created, passes the guard and holds no cache. */
  lemma EmptyDirectory()
    ensures PollutionVerdict({}) == Pass
    ensures !IsUsableCache({})
  {
  }

  /** The entries of `path`: none when no directory exists there. */
  function Listing(dirs: map<Path, set<string>>, path: Path): set<string> {
    if path in dirs then dirs[path] else {}
  }

  /** The directories after File.mkdir: `path` exists, with its entries kept when it already
      existed and none when it is new, and no other directory changes. */
  function AfterMkdir(dirs: map<Path, set<string>>, path: Path): (after: map<Path, set<string>>)
    ensures after.Keys == dirs.Keys + {path}
    ensures Listing(after, path) == Listing(dirs, path)
    ensures forall p :: p in dirs ==> after[p] == dirs[p]
  {
    if path in dirs then dirs else dirs[path := {}]
  }

  /** Creating the directory a second time changes nothing. */
  lemma MkdirIdempotent(dirs: map<Path, set<string>>, path: Path)
    ensures AfterMkdir(AfterMkdir(dirs, path), path) == AfterMkdir(dirs, path)
  {
  }

  /** The existing directories and their entries (files and subdirectories alike). */
  class FileSystem {
    var dirs: map<Path, set<string>>

    constructor (dirs: map<Path, set<string>>)
      ensures this.dirs == dirs
    {
      this.dirs := dirs;
    }

    function Entries(path: Path): set<string>
      reads this
    {
      Listing(dirs, path)
    }

    /** File.mkdir: creates the directory when it is absent and reports whether it did. */
    method Mkdir(path: Path) returns (created: bool)
      modifies this
      ensures created <==> path !in old(dirs)
      ensures dirs == AfterMkdir(old(dirs), path)
    {
      created := path !in dirs;
      if created {
        dirs := dirs[path := {}];
      }
    }
  }
}
