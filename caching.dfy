/**
 * The query cache of llama_modular_rag/caching.py: one pickle file per query,
 * named by the md5 digest of the query's bytes, in the cache directory. The
 * files live on the disk, so every `QueryCache` over the same directory sees
 * the same entries.
 */
module Caching {
  import opened Wrappers
  import opened Paths
  import opened Digest
  import opened State
  import opened Files

  const PickleSuffix := ".pkl"

  /** `get_cache_key`: the md5 hex digest of the query's encoded bytes; equal queries give equal keys. */
  function CacheKey(md5: seq<byte> -> HexDigest, encode: string -> seq<byte>, query: string): (key: HexDigest)
  {
    md5(encode(query))
  }

  /** The file an entry is stored in: `{cache_dir}/{key}.pkl`. Its basename is the key with the suffix. */
  function CacheFile(cacheDir: string, key: HexDigest): (path: string)
    ensures Basename(path) == key + PickleSuffix
  {
    NoSeparatorInDigest(key);
    Join(cacheDir, key + PickleSuffix)
  }

  /** Distinct keys are stored in distinct files; equal keys share one file. */
  lemma CacheFileInjective(cacheDir: string, key1: HexDigest, key2: HexDigest)
    ensures CacheFile(cacheDir, key1) == CacheFile(cacheDir, key2) <==> key1 == key2
  {
    if CacheFile(cacheDir, key1) == CacheFile(cacheDir, key2) {
      var b1, b2 := key1 + PickleSuffix, key2 + PickleSuffix;
      assert b1[0] == key1[0] && b2[0] == key2[0];
      JoinInjective(cacheDir, b1, b2);
      assert key1 == b1[..32] && key2 == b2[..32];
    }
  }

  /** What reading the file at `path` yields: the stored value, or `None` when there is none. */
  function Lookup(pickles: map<string, RAGState>, path: string): (value: Option<RAGState>)
  {
    if path in pickles then Some(pickles[path]) else None
  }

  /**
   * After storing `value` under `key`, a lookup under `key` returns `value`,
   * whatever was stored before, and a lookup under any other key returns what
   * it returned before.
   */
  lemma LookupAfterStore(pickles: map<string, RAGState>, cacheDir: string, key: HexDigest, other: HexDigest, value: RAGState)
    ensures Lookup(pickles[CacheFile(cacheDir, key) := value], CacheFile(cacheDir, other))
            == if other == key then Some(value) else Lookup(pickles, CacheFile(cacheDir, other))
  {
    CacheFileInjective(cacheDir, key, other);
  }

  class QueryCache {
    const disk: Disk
    const cacheDir: string
    const md5: seq<byte> -> HexDigest
    const encode: string -> seq<byte>

    /** Records the directory and creates it; creating an existing directory changes nothing. */
    constructor (disk: Disk, cacheDir: string, md5: seq<byte> -> HexDigest, encode: string -> seq<byte>)
      modifies disk
      ensures this.disk == disk && this.cacheDir == cacheDir && this.md5 == md5 && this.encode == encode
      ensures disk.dirs == old(disk.dirs) + {cacheDir}
      ensures disk.files == old(disk.files) && disk.pickles == old(disk.pickles)
      ensures forall p :: disk.Exists(p) <==> old(disk.Exists(p)) || p == cacheDir
    {
      this.disk := disk;
      this.cacheDir := cacheDir;
      this.md5 := md5;
      this.encode := encode;
      new;
      disk.MakeDirs(cacheDir);
    }

    /** The file holding the entry of `query`. */
    function PathFor(query: string): (path: string)
      ensures Basename(path) == CacheKey(md5, encode, query) + PickleSuffix
    {
      CacheFile(cacheDir, CacheKey(md5, encode, query))
    }

    /** `get_cached_result`: the value stored for the query's key, `None` when none was; the disk is not changed. */
    method GetCachedResult(query: string) returns (r: Option<RAGState>)
      ensures r == Lookup(disk.pickles, PathFor(query))
    {
      var cachePath := PathFor(query);
      r := disk.LoadPickle(cachePath);
    }

    /**
     * `cache_result`: overwrites the entry of the query's key with `result`.
     * Entries of every other key are unchanged; queries with equal keys share
     * the one entry.
     */
    method CacheResult(query: string, result: RAGState)
      modifies disk
      ensures disk.pickles == old(disk.pickles)[PathFor(query) := result]
      ensures disk.dirs == old(disk.dirs) && disk.files == old(disk.files)
      ensures Lookup(disk.pickles, PathFor(query)) == Some(result)
      ensures forall q :: CacheKey(md5, encode, q) != CacheKey(md5, encode, query) ==>
                Lookup(disk.pickles, PathFor(q)) == Lookup(old(disk.pickles), PathFor(q))
    {
      var cachePath := PathFor(query);
      disk.DumpPickle(cachePath, result);
      forall q | CacheKey(md5, encode, q) != CacheKey(md5, encode, query)
        ensures Lookup(disk.pickles, PathFor(q)) == Lookup(old(disk.pickles), PathFor(q))
      {
        LookupAfterStore(old(disk.pickles), cacheDir, CacheKey(md5, encode, query), CacheKey(md5, encode, q), result);
      }
    }
  }

  /** Storing a result and reading the same query back gives that result. */
  method StoreThenRead(cache: QueryCache, query: string, result: RAGState) returns (read: Option<RAGState>)
    modifies cache.disk
    ensures read == Some(result)
  {
    cache.CacheResult(query, result);
    read := cache.GetCachedResult(query);
  }
}
