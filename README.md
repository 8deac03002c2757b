# JCasCacher, modelled in Dafny

`JCasCacher` caches the CASes a UIMA pipeline produces as XMI files in a cache directory.
A caller gives it an original collection reader and an original preprocessing engine.
The caller then asks it for "the reader to use" and "the preprocessing to use":

- When caching is enabled and the directory holds a usable cache, the answers are an XMI
  reader over the cache directory and a no-op annotator.
- Otherwise the answers are the original reader and an aggregate that runs the original
  preprocessing and then an XMI writer into the cache directory, so the next run finds a cache.

Before either answer, a guard creates the directory if it is missing. The guard fails with
an error naming how many entries do not end in `xmi` or `xml`.

The model has five modules:

- `Errors`: the guard's failure, `PollutedCache(offendingFiles)`, and the `Outcome`/`Result`
  values that carry it.
- `Descriptors`: the UIMA reader and engine descriptions as opaque datatype values.
  `Aggregate(delegates)` runs its delegates in the given order.
- `CacheDirectory`: the two file-name filters, the guard's verdict, the cache-state detector,
  and a `FileSystem` class. The class maps each existing directory to the names of its entries,
  and its `Mkdir` behaves like `File.mkdir`.
- `Caching`: the `JCasCacher` class with its four fields, its setters, the guard, the detector
  and both accessors. It also holds `SelectReader` and `SelectPreprocessing`, the pure functions
  that state which descriptor each accessor returns for a given configuration and listing.
  The lemmas about those functions are here too.
- `Usage`: the documented way of using the cacher (fetch the reader, then the preprocessing),
  and reference scenarios.

Name filters, as the code has them:

- The guard's filter is `RegexFileFilter(".*(xmi|xml)$")`, which matches the whole name. So a
  name passes when it ends in `xmi` or `xml` and no Java line terminator occurs before that
  suffix (`IsCacheArtifact`). Names such as `fooxml` pass, although they have no dot.
- The detector's filter is the case-sensitive extension `.xmi` (`IsXmiFile`), together with
  the presence of `typesystem.xml`.

Each accessor re-runs the guard and the detector itself; no verdict is kept between calls.
The two answers agree while only the cacher touches the directory between the calls
(`Usage.CachingStages`). The guard accepts any name ending in `xmi` or `xml`, not only
`typesystem.xml` and `.xmi` files.

## Model

| member | source | states |
|---|---|---|
| `CacheDirectory.PollutionVerdict` | src/main/java/de/rolandkluge/uima/cascaching/JCasCacher.java:128-135 | the guard passes exactly when every entry ends in `xmi` or `xml` with no line terminator before that suffix; a failure reports a positive count |
| `CacheDirectory.ListingSplits` | src/main/java/de/rolandkluge/uima/cascaching/JCasCacher.java:128-130 | the full listing is the filtered listing plus the offending entries, so its size is the sum of theirs |
| `CacheDirectory.VerdictFromCounts` | src/main/java/de/rolandkluge/uima/cascaching/JCasCacher.java:128-135 | comparing "all files" with "matching files", as the code does, fails exactly when some entry is offending, and the difference reported is the number of offending entries |
| `CacheDirectory.ArtifactsDoNotMaskPollution` | src/main/java/de/rolandkluge/uima/cascaching/JCasCacher.java:128-135 | adding any number of valid cache files beside a polluting entry changes neither the verdict nor the reported count |
| `CacheDirectory.IsUsableCache` | src/main/java/de/rolandkluge/uima/cascaching/JCasCacher.java:138-144 | the cache is usable iff `typesystem.xml` is an entry and some entry has extension `.xmi`; missing either makes it unusable |
| `CacheDirectory.EmptyDirectory` | src/main/java/de/rolandkluge/uima/cascaching/JCasCacher.java:123-144 | an empty (just created) directory passes the guard and holds no usable cache |
| `CacheDirectory.AfterMkdir` | src/main/java/de/rolandkluge/uima/cascaching/JCasCacher.java:126 | after `mkdir` the directory exists, its listing is what it was (empty if it was absent), and no other modelled directory's listing changes |
| `CacheDirectory.MkdirIdempotent` | src/main/java/de/rolandkluge/uima/cascaching/JCasCacher.java:126 | creating the directory twice is the same as creating it once |
| `CacheDirectory.FileSystem.Mkdir` | src/main/java/de/rolandkluge/uima/cascaching/JCasCacher.java:126 | `File.mkdir` creates the directory exactly when it is absent, reports whether it did, and leaves every other modelled directory's listing as it was, as `AfterMkdir` says |
| `Caching.JCasCacher.constructor` | src/main/java/de/rolandkluge/uima/cascaching/JCasCacher.java:61-69 | a new cacher has caching enabled, uses `./target/cascaching-cache`, and stores the given reader and preprocessing |
| `Caching.JCasCacher.SetOriginalReader` | src/main/java/de/rolandkluge/uima/cascaching/JCasCacher.java:71-74 | overwrites the original reader and no other field |
| `Caching.JCasCacher.SetOriginalPreprocessing` | src/main/java/de/rolandkluge/uima/cascaching/JCasCacher.java:76-79 | overwrites the original preprocessing and no other field |
| `Caching.JCasCacher.SetUseCache` | src/main/java/de/rolandkluge/uima/cascaching/JCasCacher.java:81-84 | overwrites the caching toggle and no other field |
| `Caching.JCasCacher.CheckDirectoryIsNotPolluted` | src/main/java/de/rolandkluge/uima/cascaching/JCasCacher.java:123-136 | creates the directory if needed; the result of its count comparison is the verdict `PollutionVerdict` gives for the listing |
| `Caching.JCasCacher.HasCachedCASes` | src/main/java/de/rolandkluge/uima/cascaching/JCasCacher.java:138-144 | true iff the cache directory's listing holds `typesystem.xml` and at least one `.xmi` entry |
| `Caching.JCasCacher.GetCachingReader` | src/main/java/de/rolandkluge/uima/cascaching/JCasCacher.java:86-103 | runs the guard (creating the directory) and propagates its failure; otherwise returns the cache reader iff caching is on and the cache is usable, else the stored original reader |
| `Caching.JCasCacher.GetCachingPreprocessing` | src/main/java/de/rolandkluge/uima/cascaching/JCasCacher.java:105-121 | runs the guard and propagates its failure; otherwise returns the no-op annotator iff caching is on and the cache is usable, else the original preprocessing followed by an XMI writer into the cache directory |
| `Caching.AccessorsAgree` | src/main/java/de/rolandkluge/uima/cascaching/JCasCacher.java:86-121 | for the same fields and listing, both accessors fail together for any reader; when they succeed and the caller's reader is not itself the cache reader, the reader is the cache reader iff the preprocessing is the no-op |
| `Caching.PollutionBeatsCache` | src/main/java/de/rolandkluge/uima/cascaching/JCasCacher.java:86-121 | with any offending entry both accessors fail with the number of offending entries, however complete the cache is |
| `Caching.DisabledCacheIsIgnored` | src/main/java/de/rolandkluge/uima/cascaching/JCasCacher.java:81-121 | with caching off, a clean directory gives the original reader and the original preprocessing followed by the writer, whatever it holds |
| `Caching.CacheUsedExactlyWhenPresent` | src/main/java/de/rolandkluge/uima/cascaching/JCasCacher.java:86-103 | with caching on and a clean directory, the cache reader is chosen iff `typesystem.xml` and some `.xmi` entry are present |
| `Usage.CachingStages` | src/main/java/de/rolandkluge/uima/cascaching/JCasCacher.java:27-35 | fetching the reader and then the preprocessing creates the directory once, and the two answers take the same branch |
| `Usage.FreshDirectoryFillsCache` | src/main/java/de/rolandkluge/uima/cascaching/JCasCacher.java:86-136 | with no cache directory and caching on, the directory is created empty, and the original reader is used with the preprocessing followed by the writer |
| `Usage.CompleteCacheIsServed` | src/main/java/de/rolandkluge/uima/cascaching/JCasCacher.java:86-121 | `typesystem.xml` plus three `.xmi` files with caching on give the XMI reader with pattern `[+]*.xmi` over the directory and the no-op annotator |
| `Usage.CompleteCacheIgnoredWhenDisabled` | src/main/java/de/rolandkluge/uima/cascaching/JCasCacher.java:81-121 | the same directory with caching off gives the original reader and the original preprocessing followed by the writer |
| `Usage.StrayFileIsReported` | src/main/java/de/rolandkluge/uima/cascaching/JCasCacher.java:123-136 | `typesystem.xml`, one `.xmi` file and one `.tmp` file make both accessors fail, reporting exactly one offending file |

## Left out

- The UIMA factory calls (`createReaderDescription`, `createEngineDescription`) and the XMI reader and writer are foreign library code. Their descriptions are opaque datatype values, and construction errors they could raise are not modelled.
- The XMI serialization format is not modelled, and neither is what the reader, writer or `DummyAnnotator.process` (an empty body) do at run time.
- The informational log line on the fall-back path is observation only.
- The error's message text is not modelled: only the count it reports is, as `PollutedCache(offendingFiles)`.
- `File.mkdir` is taken to succeed whenever the directory is absent. Three cases are left out: a missing parent (`./target`), a plain file with that name, and `listFiles` returning null (the resulting NullPointerException).
- The file system is a set of entry names per directory. Files and subdirectories are not told apart, so the detector's restriction to regular files and the existence test on `typesystem.xml` are over names only.
- Concurrent writers to the cache directory are not modelled. Only the cacher changes the modelled file system.
- No check is made that cached CASes match the current reader or preprocessing; the code does not make one either.
- CacheDirectory.AfterMkdir: directories are independent entries keyed by their path text. Creating a directory does not add its name to the parent directory's listing, and paths are not normalised (`./target/cascaching-cache` and `target/cascaching-cache` are two directories). The cacher only reads the cache directory's own listing.
- CacheDirectory.FileSystem.Mkdir: has the same limits as `AfterMkdir`. The parent's listing is not updated and paths are not normalised.
