/**
 * The vector-store location and reuse decision of
 * llama_modular_rag/data_loader.py. The store of a PDF lives in
 * `{vector_db}/{name}_{digest}`, where `name` is the file's basename with
 * every ".pdf" removed and `digest` is the md5 of the file's bytes. An
 * existing directory is reopened as it is; otherwise the directory is
 * created and the store is built from the PDF's chunks.
 */
module DataLoader {
  import opened Wrappers
  import opened Errors
  import opened Config
  import opened Paths
  import opened Digest
  import opened State
  import opened Files

  const PdfExtension := ".pdf"

  /** `s` starts with ".pdf", compared character by character. */
  predicate StartsWithPdf(s: string)
  {
    |s| >= 4 && s[0] == '.' && s[1] == 'p' && s[2] == 'd' && s[3] == 'f'
  }

  /** ".pdf" occurs somewhere in `s`. */
  predicate ContainsPdf(s: string)
  {
    s != [] && (StartsWithPdf(s) || ContainsPdf(s[1..]))
  }

  /**
   * `s.replace('.pdf', '')`: scanning left to right, every occurrence is
   * removed and the scan resumes after it. No new character appears.
   */
  function RemovePdf(s: string): (r: string)
    ensures |r| <= |s|
  {
    if s == [] then []
    else if StartsWithPdf(s) then RemovePdf(s[4..])
    else [s[0]] + RemovePdf(s[1..])
  }

  /** Removal adds no character: every character of the result was in the name. */
  lemma {:induction false} RemovePdfAddsNothing(s: string)
    ensures forall c :: c in RemovePdf(s) ==> c in s
  {
    if s != [] {
      if StartsWithPdf(s) {
        RemovePdfAddsNothing(s[4..]);
      } else {
        RemovePdfAddsNothing(s[1..]);
      }
    }
  }

  /** A name without ".pdf" is left as it is. */
  lemma {:induction false} RemovePdfUnchanged(s: string)
    requires !ContainsPdf(s)
    ensures RemovePdf(s) == s
  {
    if s != [] {
      RemovePdfUnchanged(s[1..]);
    }
  }

  /**
   * Every occurrence is removed, not only a trailing one: cutting the name at
   * any ".pdf", the result is the two sides with theirs removed. (No suffix of
   * ".pdf" is also a prefix of it, so an occurrence never starts in `a` and
   * runs into the cut one.)
   */
  lemma {:induction false} RemovePdfAround(a: string, b: string)
    ensures RemovePdf(a + PdfExtension + b) == RemovePdf(a) + RemovePdf(b)
  {
    var t := a + PdfExtension + b;
    if a == [] {
      assert t == PdfExtension + b && t[4..] == b;
    } else if StartsWithPdf(a) {
      assert t[4..] == a[4..] + PdfExtension + b;
      RemovePdfAround(a[4..], b);
    } else {
      assert !StartsWithPdf(t) by {
        if |a| < 4 {
          assert t[|a|] == '.';
        }
      }
      assert t[1..] == a[1..] + PdfExtension + b;
      RemovePdfAround(a[1..], b);
      ghost var ra, rb := RemovePdf(a[1..]), RemovePdf(b);
      assert [a[0]] + (ra + rb) == ([a[0]] + ra) + rb;
    }
  }

  /** A name ending in its one ".pdf" loses exactly that extension. */
  lemma RemovePdfTrailing(s: string)
    requires !ContainsPdf(s)
    ensures RemovePdf(s + PdfExtension) == s
  {
    RemovePdfAround(s, []);
    assert s + PdfExtension + [] == s + PdfExtension;
    RemovePdfUnchanged(s);
  }

  /** `pdf_name`: the basename with every ".pdf" removed; it never contains a separator. */
  function PdfName(pdfPath: string): (name: string)
    ensures Separator !in name
  {
    RemovePdfAddsNothing(Basename(pdfPath));
    RemovePdf(Basename(pdfPath))
  }

  /** The directory name, also used as the collection name: `{pdf_name}_{key}`. */
  function CollectionName(pdfPath: string, key: HexDigest): (name: string)
    ensures Separator !in name
  {
    NoSeparatorInDigest(key);
    PdfName(pdfPath) + "_" + key
  }

  /** `vector_db_directory`: the collection name under the vector-store root; its last component is that name. */
  function StoreDirectory(vectorDbPath: string, pdfPath: string, key: HexDigest): (dir: string)
    ensures Basename(dir) == CollectionName(pdfPath, key)
  {
    Join(vectorDbPath, CollectionName(pdfPath, key))
  }

  /** A handle on a vector store: reopened from disk, or built from chunks. */
  datatype VectorStore =
    | Reopened(directory: string)
    | Built(directory: string, collection: string, chunks: seq<Document>)

  /**
   * The store `create_vectorstore_from_pdf` returns for a PDF with the given
   * bytes, given whether its directory already exists: reopened without
   * loading or splitting when it does; otherwise built from the PDF's pages
   * split with `ChunkSize` and `ChunkOverlap`, under a collection named as the
   * directory's last component.
   */
  function StoreFor(
    dirExists: bool, vectorDbPath: string, pdfPath: string, bytes: seq<byte>,
    md5: seq<byte> -> HexDigest,
    loadPdf: (string, seq<byte>) -> seq<Document>,
    splitDocuments: (seq<Document>, nat, nat) -> seq<Document>): (store: VectorStore)
    ensures store.directory == StoreDirectory(vectorDbPath, pdfPath, md5(bytes))
    ensures store.Reopened? <==> dirExists
    ensures store.Built? ==>
      && store.collection == Basename(store.directory)
      && store.chunks == splitDocuments(loadPdf(pdfPath, bytes), ChunkSize, ChunkOverlap)
  {
    var key := md5(bytes);
    var dir := StoreDirectory(vectorDbPath, pdfPath, key);
    if dirExists then Reopened(dir)
    else Built(dir, CollectionName(pdfPath, key), splitDocuments(loadPdf(pdfPath, bytes), ChunkSize, ChunkOverlap))
  }

  /**
   * `create_vectorstore_from_pdf`: a missing PDF raises; otherwise the store
   * of `StoreFor`, and a store directory that did not exist is created before
   * the build. Either way the store's directory exists afterwards, so a later
   * call for the same name and bytes reopens it.
   */
  method CreateVectorStoreFromPdf(
    disk: Disk, vectorDbPath: string, pdfPath: string,
    md5: seq<byte> -> HexDigest,
    loadPdf: (string, seq<byte>) -> seq<Document>,
    splitDocuments: (seq<Document>, nat, nat) -> seq<Document>) returns (r: Result<VectorStore, Error>)
    modifies disk
    ensures disk.files == old(disk.files) && disk.pickles == old(disk.pickles)
    ensures pdfPath !in old(disk.files) ==> r == Failure(FileNotFound(pdfPath)) && disk.dirs == old(disk.dirs)
    ensures pdfPath in old(disk.files) ==>
      var dir := StoreDirectory(vectorDbPath, pdfPath, md5(old(disk.files)[pdfPath]));
      && r == Success(StoreFor(old(disk.Exists(dir)), vectorDbPath, pdfPath, old(disk.files)[pdfPath], md5, loadPdf, splitDocuments))
      && disk.dirs == (if old(disk.Exists(dir)) then old(disk.dirs) else old(disk.dirs) + {dir})
    ensures r.Success? ==> disk.Exists(r.value.directory)
  {
    var content := disk.ReadBytes(pdfPath);
    if content.Failure? {
      return Failure(content.error);
    }
    var bytes := content.value;
    var cacheKey := md5(bytes);
    var vectorDbDirectory := StoreDirectory(vectorDbPath, pdfPath, cacheKey);
    if disk.Exists(vectorDbDirectory) {
      return Success(Reopened(vectorDbDirectory));
    }
    disk.MakeDirs(vectorDbDirectory);
    var splits := splitDocuments(loadPdf(pdfPath, bytes), ChunkSize, ChunkOverlap);
    r := Success(Built(vectorDbDirectory, CollectionName(pdfPath, cacheKey), splits));
  }

  /** A second call for the same PDF, unchanged on disk, reopens the store the first call returned. */
  method SecondCallReopens(
    disk: Disk, vectorDbPath: string, pdfPath: string,
    md5: seq<byte> -> HexDigest,
    loadPdf: (string, seq<byte>) -> seq<Document>,
    splitDocuments: (seq<Document>, nat, nat) -> seq<Document>) returns (first: Result<VectorStore, Error>, second: Result<VectorStore, Error>)
    modifies disk
    ensures first.Success? ==> second == Success(Reopened(first.value.directory))
  {
    first := CreateVectorStoreFromPdf(disk, vectorDbPath, pdfPath, md5, loadPdf, splitDocuments);
    second := CreateVectorStoreFromPdf(disk, vectorDbPath, pdfPath, md5, loadPdf, splitDocuments);
  }

  /** The removed name can still contain ".pdf": removal is one left-to-right pass. */
  lemma RemovalIsOnePass()
    ensures RemovePdf(".p.pdfdf") == PdfExtension
  {
    assert !StartsWithPdf(".p.pdfdf");
    assert ".p.pdfdf"[1..] == "p.pdfdf" && !StartsWithPdf("p.pdfdf");
    assert "p.pdfdf"[1..] == ".pdfdf" && StartsWithPdf(".pdfdf");
    assert ".pdfdf"[4..] == "df" && !StartsWithPdf("df") && !StartsWithPdf("f");
  }
}
