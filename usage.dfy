/** The cacher as its documentation says to use it, and the reference scenarios of a
    pipeline set up against a cache directory. */
module Usage {
  import opened Errors
  import opened Descriptors
  import opened CacheDirectory
  import opened Caching

  /** Fetch the caching reader, then the caching preprocessing, to plug both into one
      pipeline. The first guard creates the directory and the second finds it unchanged,
      so both accessors see the same listing and take the same branch. */
  method CachingStages(cacher: JCasCacher, fs: FileSystem)
    returns (reader: Result<ReaderDescription>, preprocessing: Result<EngineDescription>)
    modifies fs
    ensures fs.dirs == AfterMkdir(old(fs.dirs), cacher.cacheDirectory)
    ensures reader == SelectReader(cacher.isUseCache, cacher.cacheDirectory, cacher.originalReader,
                                   old(fs.Entries(cacher.cacheDirectory)))
    ensures preprocessing == SelectPreprocessing(cacher.isUseCache, cacher.cacheDirectory,
                                                 cacher.originalPreprocessingEngine,
                                                 old(fs.Entries(cacher.cacheDirectory)))
    ensures reader.Err? <==> preprocessing.Err?
    ensures reader.Ok? && cacher.originalReader != CacheReader(cacher.cacheDirectory) ==>
              (reader.value == CacheReader(cacher.cacheDirectory) <==> preprocessing.value == DummyAnnotator)
  {
    reader := cacher.GetCachingReader(fs);
    preprocessing := cacher.GetCachingPreprocessing(fs);
    MkdirIdempotent(old(fs.dirs), cacher.cacheDirectory);
    AccessorsAgree(cacher.isUseCache, cacher.cacheDirectory, cacher.originalReader,
                   cacher.originalPreprocessingEngine, old(fs.Entries(cacher.cacheDirectory)));
  }

  /** No cache directory yet, caching enabled: the directory is created empty, and the
      pipeline reads with the original reader and writes what it preprocesses. */
  lemma FreshDirectoryFillsCache(dirs: map<Path, set<string>>, reader: ReaderDescription,
                                 preprocessing: EngineDescription)
    requires DefaultCacheDirectory !in dirs
    ensures AfterMkdir(dirs, DefaultCacheDirectory)[DefaultCacheDirectory] == {}
    ensures SelectReader(true, DefaultCacheDirectory, reader, Listing(dirs, DefaultCacheDirectory)) == Ok(reader)
    ensures SelectPreprocessing(true, DefaultCacheDirectory, preprocessing, Listing(dirs, DefaultCacheDirectory))
            == Ok(Aggregate([preprocessing, XmiWriter(DefaultCacheDirectory)]))
  {
  }

  /** A complete cache: the type system and three serialized CASes. */
  function CompleteCache(): set<string> {
    {TypesystemName, "1.xmi", "2.xmi", "3.xmi"}
  }

  /** Caching enabled over a complete cache: read from the cache, preprocess nothing. */
  lemma CompleteCacheIsServed(dir: Path, reader: ReaderDescription, preprocessing: EngineDescription)
    ensures SelectReader(true, dir, reader, CompleteCache()) == Ok(XmiReader(dir, "[+]*.xmi"))
    ensures SelectPreprocessing(true, dir, preprocessing, CompleteCache()) == Ok(DummyAnnotator)
  {
    assert "1.xmi" in CompleteCache() && IsXmiFile("1.xmi");
    assert forall e :: e in CompleteCache() ==> IsCacheArtifact(e);
  }

  /** Caching disabled over the same complete cache: the cache is ignored. */
  lemma CompleteCacheIgnoredWhenDisabled(dir: Path, reader: ReaderDescription, preprocessing: EngineDescription)
    ensures SelectReader(false, dir, reader, CompleteCache()) == Ok(reader)
    ensures SelectPreprocessing(false, dir, preprocessing, CompleteCache())
            == Ok(Aggregate([preprocessing, XmiWriter(dir)]))
  {
    assert forall e :: e in CompleteCache() ==> IsCacheArtifact(e);
  }

  /** One stray temporary file beside an otherwise valid cache: both accessors fail,
      reporting exactly one offending file. */
  lemma StrayFileIsReported(useCache: bool, dir: Path, reader: ReaderDescription,
                            preprocessing: EngineDescription)
    ensures SelectReader(useCache, dir, reader, {TypesystemName, "1.xmi", "notes.tmp"}) == Err(PollutedCache(1))
    ensures SelectPreprocessing(useCache, dir, preprocessing, {TypesystemName, "1.xmi", "notes.tmp"})
            == Err(PollutedCache(1))
  {
    var entries := {TypesystemName, "1.xmi", "notes.tmp"};
    assert !IsCacheArtifact("notes.tmp");
    assert IsCacheArtifact(TypesystemName) && IsCacheArtifact("1.xmi");
    assert OffendingFiles(entries) == {"notes.tmp"};
  }
}
