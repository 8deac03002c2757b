/** Opaque pipeline-stage descriptors: what the UIMA factories would build, as values. */
module Descriptors {

  /** A file-system path, as the text given to java.io.File. */
  type Path = string

  /** The file-name pattern the cache reader is configured to read. */
  const CachedCasPattern: string := "[+]*.xmi"

  /** A collection reader description. */
  datatype ReaderDescription =
    | UserReader(id: string)                           // any reader the caller supplies
    | XmiReader(sourceLocation: Path, patterns: string)

  /** An analysis engine description; an aggregate runs its delegates in the given order. */
  datatype EngineDescription =
    | UserEngine(id: string)                           // any preprocessing the caller supplies
    | DummyAnnotator                                   // the no-op annotator
    | XmiWriter(targetLocation: Path)
    | Aggregate(delegates: seq<EngineDescription>)

  /** The reader over the cached CASes in `dir`. */
  function CacheReader(dir: Path): ReaderDescription {
    XmiReader(dir, CachedCasPattern)
  }

  /** The original preprocessing followed by a writer that stores every CAS in `dir`. */
  function PreprocessThenWrite(preprocessing: EngineDescription, dir: Path): EngineDescription {
    Aggregate([preprocessing, XmiWriter(dir)])
  }
}
