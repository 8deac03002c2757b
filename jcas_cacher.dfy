/** The cacher: it hands a pipeline either the original reader and preprocessing (with a
    writer that fills the cache) or a reader over the cache and a no-op preprocessing. */
module Caching {
  import opened Errors
  import opened Descriptors
  import opened CacheDirectory

  /** Where a new cacher keeps its cache. */
  const DefaultCacheDirectory: Path := "./target/cascaching-cache"

  /** The branch condition both accessors test. */
  predicate ServesFromCache(useCache: bool, entries: set<string>) {
    useCache && IsUsableCache(entries)
  }

  /** The reader getCachingReader hands out for the given configuration and listing. */
  function SelectReader(useCache: bool, dir: Path, original: ReaderDescription, entries: set<string>)
    : Result<ReaderDescription>
  {
    match PollutionVerdict(entries)
    case Fail(error) => Err(error)
    case Pass => Ok(if ServesFromCache(useCache, entries) then CacheReader(dir) else original)
  }

  /** The preprocessing getCachingPreprocessing hands out for the given configuration and listing. */
  function SelectPreprocessing(useCache: bool, dir: Path, original: EngineDescription, entries: set<string>)
    : Result<EngineDescription>
  {
    match PollutionVerdict(entries)
    case Fail(error) => Err(error)
    case Pass => Ok(if ServesFromCache(useCache, entries) then DummyAnnotator else PreprocessThenWrite(original, dir))
  }

  class JCasCacher {
    var originalReader: ReaderDescription
    var originalPreprocessingEngine: EngineDescription
    var isUseCache: bool
    var cacheDirectory: Path

    /** A new cacher uses the cache, in the default directory, for the given stages. */
    constructor (originalReader: ReaderDescription, preprocessingEngine: EngineDescription)
      ensures isUseCache && cacheDirectory == DefaultCacheDirectory
      ensures this.originalReader == originalReader
      ensures originalPreprocessingEngine == preprocessingEngine
    {
      isUseCache := true;
      cacheDirectory := DefaultCacheDirectory;
      new;
      SetOriginalReader(originalReader);
      SetOriginalPreprocessing(preprocessingEngine);
    }

    method SetOriginalReader(originalReader: ReaderDescription)
      modifies this
      ensures this.originalReader == originalReader
      ensures originalPreprocessingEngine == old(originalPreprocessingEngine)
      ensures isUseCache == old(isUseCache) && cacheDirectory == old(cacheDirectory)
    {
      this.originalReader := originalReader;
    }

    method SetOriginalPreprocessing(preprocessingEngine: EngineDescription)
      modifies this
      ensures originalPreprocessingEngine == preprocessingEngine
      ensures originalReader == old(originalReader)
      ensures isUseCache == old(isUseCache) && cacheDirectory == old(cacheDirectory)
    {
      originalPreprocessingEngine := preprocessingEngine;
    }

    method SetUseCache(enabled: bool)
      modifies this
      ensures isUseCache == enabled
      ensures originalReader == old(originalReader)
      ensures originalPreprocessingEngine == old(originalPreprocessingEngine)
      ensures cacheDirectory == old(cacheDirectory)
    {
      isUseCache := enabled;
    }

    /** The guard: creates the cache directory if needed, then compares the size of its
        listing with the size of the listing filtered by `.*(xmi|xml)$`. */
    method CheckDirectoryIsNotPolluted(fs: FileSystem) returns (outcome: Outcome)
      modifies fs
      ensures fs.dirs == AfterMkdir(old(fs.dirs), cacheDirectory)
      ensures outcome == PollutionVerdict(fs.Entries(cacheDirectory))
    {
      var _ := fs.Mkdir(cacheDirectory);
      var listing := fs.Entries(cacheDirectory);
      var allFilesCount := |listing|;
      var cachedFilesCount := |CachedFiles(listing)|;
      VerdictFromCounts(listing);
      if allFilesCount > cachedFilesCount {
        outcome := Fail(PollutedCache(allFilesCount - cachedFilesCount));
      } else {
        outcome := Pass;
      }
    }

    /** Whether the cache directory holds a usable cache. */
    function HasCachedCASes(fs: FileSystem): (usable: bool)
      reads this, fs
      ensures usable <==> TypesystemName in fs.Entries(cacheDirectory) &&
                          exists e :: e in fs.Entries(cacheDirectory) && IsXmiFile(e)
    {
      IsUsableCache(fs.Entries(cacheDirectory))
    }

    method GetCachingReader(fs: FileSystem) returns (reader: Result<ReaderDescription>)
      modifies fs
      ensures fs.dirs == AfterMkdir(old(fs.dirs), cacheDirectory)
      ensures reader == SelectReader(isUseCache, cacheDirectory, originalReader, old(fs.Entries(cacheDirectory)))
    {
      var outcome := CheckDirectoryIsNotPolluted(fs);
      if outcome.Fail? {
        return Err(outcome.error);
      }
      if isUseCache && HasCachedCASes(fs) {
        reader := Ok(CacheReader(cacheDirectory));
      } else {
        reader := Ok(originalReader);
      }
    }

    method GetCachingPreprocessing(fs: FileSystem) returns (preprocessing: Result<EngineDescription>)
      modifies fs
      ensures fs.dirs == AfterMkdir(old(fs.dirs), cacheDirectory)
      ensures preprocessing == SelectPreprocessing(isUseCache, cacheDirectory, originalPreprocessingEngine,
                                                   old(fs.Entries(cacheDirectory)))
    {
      var outcome := CheckDirectoryIsNotPolluted(fs);
      if outcome.Fail? {
        return Err(outcome.error);
      }
      if isUseCache && HasCachedCASes(fs) {
        preprocessing := Ok(DummyAnnotator);
      } else {
        var xmiWriter := XmiWriter(cacheDirectory);
        preprocessing := Ok(Aggregate([originalPreprocessingEngine, xmiWriter]));
      }
    }
  }

  /** Both accessors fail on a polluted directory, and otherwise take the same branch: the
      reader is the cache reader exactly when the preprocessing is the no-op annotator
      (provided the caller's own reader is not that very cache reader). */
  lemma AccessorsAgree(useCache: bool, dir: Path, reader: ReaderDescription,
                       preprocessing: EngineDescription, entries: set<string>)
    ensures SelectReader(useCache, dir, reader, entries).Err? <==>
            SelectPreprocessing(useCache, dir, preprocessing, entries).Err?
    ensures SelectReader(useCache, dir, reader, entries).Ok? && reader != CacheReader(dir) ==>
              (SelectReader(useCache, dir, reader, entries).value == CacheReader(dir) <==>
               SelectPreprocessing(useCache, dir, preprocessing, entries).value == DummyAnnotator)
  {
  }

  /** A polluted directory is never used, however complete the cache beside the pollution:
      both accessors fail and report every offending entry. */
  lemma PollutionBeatsCache(useCache: bool, dir: Path, reader: ReaderDescription,
                            preprocessing: EngineDescription, entries: set<string>)
    requires exists e :: e in entries && !IsCacheArtifact(e)
    ensures SelectReader(useCache, dir, reader, entries) == Err(PollutedCache(|OffendingFiles(entries)|))
    ensures SelectPreprocessing(useCache, dir, preprocessing, entries) == Err(PollutedCache(|OffendingFiles(entries)|))
  {
  }

  /** With caching switched off, the cache contents are ignored: a clean directory always
      yields the original reader and the original preprocessing followed by the writer. */
  lemma DisabledCacheIsIgnored(dir: Path, reader: ReaderDescription,
                               preprocessing: EngineDescription, entries: set<string>)
    requires forall e :: e in entries ==> IsCacheArtifact(e)
    ensures SelectReader(false, dir, reader, entries) == Ok(reader)
    ensures SelectPreprocessing(false, dir, preprocessing, entries) == Ok(Aggregate([preprocessing, XmiWriter(dir)]))
  {
  }

  /** An enabled cacher serves from a clean directory exactly when the directory holds the
      type system and at least one ".xmi" file. */
  lemma CacheUsedExactlyWhenPresent(dir: Path, reader: ReaderDescription, entries: set<string>)
    requires reader != CacheReader(dir)
    requires forall e :: e in entries ==> IsCacheArtifact(e)
    ensures SelectReader(true, dir, reader, entries) == Ok(CacheReader(dir)) <==>
            TypesystemName in entries && exists e :: e in entries && IsXmiFile(e)
  {
  }
}
