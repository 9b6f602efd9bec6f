/**
 * Incremental extraction (brainrouter-desktop/electron/browserHost.ts): a file is parsed again
 * only when its hash changed, the cache is dropped when the mode changes, and only a full walk
 * forgets files. Compared with extracting everything from scratch.
 */
module ExtractionCache {
  import opened Common

  type Hash = string
  type Sites = seq<string>

  datatype SourceFile = SourceFile(path: string, text: string)

  /** One call: the files read, whether it was limited to selected files, and the mode. */
  datatype Call = Call(files: seq<SourceFile>, scoped: bool, broad: bool)

  /** The cache as the texts its entries were parsed from. */
  datatype Cache = Cache(parsed: map<string, string>, mode: Option<bool>)

  /** The text of each path; a later file of the same path wins. */
  function Texts(files: seq<SourceFile>): map<string, string> {
    if files == [] then map[]
    else Texts(files[..|files| - 1])[files[|files| - 1].path := files[|files| - 1].text]
  }

  function Keep(parsed: map<string, string>, f: SourceFile, hash: string -> Hash): map<string, string> {
    if f.path in parsed && hash(parsed[f.path]) == hash(f.text) then parsed else parsed[f.path := f.text]
  }

  /** Every file in turn, parsed again only when its hash is new. */
  function Refresh(parsed: map<string, string>, files: seq<SourceFile>, hash: string -> Hash): map<string, string> {
    if files == [] then parsed
    else Keep(Refresh(parsed, files[..|files| - 1], hash), files[|files| - 1], hash)
  }

  /** What survives a change of mode. */
  function Base(c: Cache, broad: bool): map<string, string> {
    if c.mode == Some(broad) then c.parsed else map[]
  }

  function After(c: Cache, call: Call, hash: string -> Hash): Cache {
    var r := Refresh(Base(c, call.broad), call.files, hash);
    Cache(if call.scoped then r else map p | p in r && p in Texts(call.files) :: r[p], Some(call.broad))
  }

  function AfterAll(c: Cache, calls: seq<Call>, hash: string -> Hash): Cache
    decreases calls
  {
    if calls == [] then c else AfterAll(After(c, calls[0], hash), calls[1..], hash)
  }

  /** The sites of every cached file. */
  function SitesOf(c: Cache, extract: (string, string, bool) -> Sites): map<string, Sites>
    requires c.mode.Some? || c.parsed == map[]
  {
    map p | p in c.parsed :: extract(p, c.parsed[p], c.mode.value)
  }

  /** Extraction from scratch. */
  function Fresh(files: seq<SourceFile>, broad: bool, extract: (string, string, bool) -> Sites): map<string, Sites> {
    var texts := Texts(files);
    map p | p in texts :: extract(p, texts[p], broad)
  }

  predicate DistinctPaths(files: seq<SourceFile>) {
    forall i, j :: 0 <= i < j < |files| ==> files[i].path != files[j].path
  }

  ghost predicate CollisionFree(hash: string -> Hash) {
    forall a: string, b: string :: hash(a) == hash(b) ==> a == b
  }

  lemma {:induction false} RefreshKeys(parsed: map<string, string>, files: seq<SourceFile>, hash: string -> Hash)
    ensures Refresh(parsed, files, hash).Keys == parsed.Keys + Texts(files).Keys
    ensures forall p <- parsed :: p !in Texts(files) ==> Refresh(parsed, files, hash)[p] == parsed[p]
    ensures forall i :: 0 <= i < |files| ==> files[i].path in Texts(files)
  {
    if files != [] {
      var before := files[..|files| - 1];
      RefreshKeys(parsed, before, hash);
      forall i | 0 <= i < |files| ensures files[i].path in Texts(files) {
        if i < |before| { assert before[i] == files[i]; }
      }
    }
  }

  /** Without hash collisions the refresh is the same as taking every text anew. */
  lemma {:induction false} RefreshIsFresh(parsed: map<string, string>, files: seq<SourceFile>, hash: string -> Hash,
      p: string)
    requires CollisionFree(hash) && p in Texts(files)
    ensures p in Refresh(parsed, files, hash) && Refresh(parsed, files, hash)[p] == Texts(files)[p]
  {
    var before, last := files[..|files| - 1], files[|files| - 1];
    RefreshKeys(parsed, files, hash);
    RefreshKeys(parsed, before, hash);
    if p != last.path { RefreshIsFresh(parsed, before, hash, p); }
  }

  /** With distinct paths: a cached text stays exactly when the hashes agree. */
  lemma {:induction false} RefreshAt(parsed: map<string, string>, files: seq<SourceFile>, hash: string -> Hash, i: nat)
    requires i < |files| && DistinctPaths(files)
    ensures var f := files[i];
      && f.path in Refresh(parsed, files, hash) && f.path in Texts(files) && Texts(files)[f.path] == f.text
      && Refresh(parsed, files, hash)[f.path] ==
           if f.path in parsed && hash(parsed[f.path]) == hash(f.text) then parsed[f.path] else f.text
  {
    var before, last := files[..|files| - 1], files[|files| - 1];
    RefreshKeys(parsed, before, hash);
    if i < |before| {
      assert before[i] == files[i];
      RefreshAt(parsed, before, hash, i);
    } else {
      NotBefore(files);
    }
  }

  lemma {:induction false} OnlyTheirPaths(files: seq<SourceFile>, p: string) returns (i: nat)
    requires p in Texts(files)
    ensures i < |files| && files[i].path == p
  {
    i := |files| - 1;
    if files[i].path != p { i := OnlyTheirPaths(files[..|files| - 1], p); }
  }

  lemma NotBefore(files: seq<SourceFile>)
    requires DistinctPaths(files) && files != []
    ensures files[|files| - 1].path !in Texts(files[..|files| - 1])
  {
    if files[|files| - 1].path in Texts(files[..|files| - 1]) {
      var i := OnlyTheirPaths(files[..|files| - 1], files[|files| - 1].path);
    }
  }

  // ---------------------------------------------------------------------------------------
  // The promises
  // ---------------------------------------------------------------------------------------

  /**
   * After any calls whatever, with files and modes changing in between, a full extraction leaves
   * exactly the sites that extracting every walked file from scratch gives.
   */
  lemma FullIsFresh(c: Cache, calls: seq<Call>, call: Call, hash: string -> Hash,
      extract: (string, string, bool) -> Sites)
    requires CollisionFree(hash) && !call.scoped
    ensures SitesOf(After(AfterAll(c, calls, hash), call, hash), extract) == Fresh(call.files, call.broad, extract)
  {
    var base := Base(AfterAll(c, calls, hash), call.broad);
    RefreshKeys(base, call.files, hash);
    forall p | p in Texts(call.files)
      ensures p in Refresh(base, call.files, hash) && Refresh(base, call.files, hash)[p] == Texts(call.files)[p]
    {
      RefreshIsFresh(base, call.files, hash, p);
    }
  }

  /** A text kept in the cache under an unchanged hash although it differs, and yields other sites. */
  predicate Stale(base: map<string, string>, f: SourceFile, broad: bool, hash: string -> Hash,
      extract: (string, string, bool) -> Sites) {
    && f.path in base && hash(base[f.path]) == hash(f.text)
    && extract(f.path, base[f.path], broad) != extract(f.path, f.text, broad)
  }

  /** With collisions, a full extraction is fresh exactly when no walked file is stale in this sense. */
  lemma FullIsFreshExactly(c: Cache, call: Call, hash: string -> Hash, extract: (string, string, bool) -> Sites)
    requires !call.scoped && DistinctPaths(call.files)
    ensures SitesOf(After(c, call, hash), extract) == Fresh(call.files, call.broad, extract)
      <==> forall i :: 0 <= i < |call.files| ==> !Stale(Base(c, call.broad), call.files[i], call.broad, hash, extract)
  {
    var base, files := Base(c, call.broad), call.files;
    var r := Refresh(base, files, hash);
    RefreshKeys(base, files, hash);
    forall i | 0 <= i < |files|
      ensures files[i].path in r && files[i].path in Texts(files) && Texts(files)[files[i].path] == files[i].text
      ensures extract(files[i].path, r[files[i].path], call.broad) == extract(files[i].path, files[i].text, call.broad)
        <==> !Stale(base, files[i], call.broad, hash, extract)
    {
      RefreshAt(base, files, hash, i);
    }
    var sites, scratch := SitesOf(After(c, call, hash), extract), Fresh(files, call.broad, extract);
    assert sites.Keys == scratch.Keys;
    if forall i :: 0 <= i < |files| ==> !Stale(base, files[i], call.broad, hash, extract) {
      forall p | p in scratch ensures sites[p] == scratch[p] {
        var i := OnlyTheirPaths(files, p);
        assert !Stale(base, files[i], call.broad, hash, extract);
      }
    } else {
      var i :| 0 <= i < |files| && Stale(base, files[i], call.broad, hash, extract);
      assert sites[files[i].path] != scratch[files[i].path];
    }
  }

  /** A scoped extraction in the same mode refreshes the selected files and touches nothing else. */
  lemma ScopedTouchesSelectedOnly(c: Cache, call: Call, hash: string -> Hash, extract: (string, string, bool) -> Sites,
      p: string)
    requires CollisionFree(hash) && call.scoped && c.mode == Some(call.broad)
    ensures var sites, sites' := SitesOf(c, extract), SitesOf(After(c, call, hash), extract);
      && (p in Texts(call.files) ==> p in sites' && sites'[p] == Fresh(call.files, call.broad, extract)[p])
      && (p !in Texts(call.files) ==> (p in sites' <==> p in sites) && (p in sites ==> sites'[p] == sites[p]))
  {
    RefreshKeys(c.parsed, call.files, hash);
    if p in Texts(call.files) { RefreshIsFresh(c.parsed, call.files, hash, p); }
  }

  /** A scoped extraction in the other mode forgets every file it did not select. */
  lemma ModeChangeForgets(c: Cache, call: Call, hash: string -> Hash)
    requires call.scoped && c.mode != Some(call.broad)
    ensures After(c, call, hash).parsed.Keys == Texts(call.files).Keys
  {
    RefreshKeys(map[], call.files, hash);
  }

  // ---------------------------------------------------------------------------------------
  // The cache in place
  // ---------------------------------------------------------------------------------------

  class BrowserHost {
    const hashContent: string -> Hash
    const extractFile: (string, string, bool) -> Sites
    var fileSites: map<string, Sites>
    var hashes: map<string, Hash>
    var lastBroad: Option<bool>
    ghost var parsed: map<string, string>

    ghost function View(): Cache
      reads this
    {
      Cache(parsed, lastBroad)
    }

    /** Both maps describe the same files: the sites and the hash of the text each was parsed from. */
    ghost predicate Valid()
      reads this
    {
      && fileSites.Keys == hashes.Keys == parsed.Keys
      && (lastBroad.None? ==> parsed == map[])
      && (forall p <- parsed ::
            hashes[p] == hashContent(parsed[p]) && fileSites[p] == extractFile(p, parsed[p], lastBroad.value))
    }

    constructor (hashContent: string -> Hash, extractFile: (string, string, bool) -> Sites)
      ensures Valid() && View() == Cache(map[], None)
      ensures this.hashContent == hashContent && this.extractFile == extractFile
    {
      this.hashContent, this.extractFile := hashContent, extractFile;
      fileSites, hashes, lastBroad, parsed := map[], map[], None, map[];
    }

    method Extract(files: seq<SourceFile>, scoped: bool, broad: bool)
      requires Valid()
      modifies this
      ensures Valid() && View() == After(old(View()), Call(files, scoped, broad), hashContent)
      ensures fileSites == SitesOf(View(), extractFile) && fileSites.Keys == hashes.Keys
    {
      if lastBroad != Some(broad) {
        fileSites, hashes, lastBroad, parsed := map[], map[], Some(broad), map[];
      }
      var present := ParseChanged(files, broad);
      if !scoped { Prune(present); }
      SitesMatch();
    }

    lemma SitesMatch()
      requires Valid() && lastBroad.Some?
      ensures fileSites == SitesOf(View(), extractFile)
    {}

    method ParseChanged(files: seq<SourceFile>, broad: bool) returns (present: set<string>)
      requires Valid() && lastBroad == Some(broad)
      modifies `fileSites, `hashes, `parsed
      ensures Valid() && parsed == Refresh(old(parsed), files, hashContent) && present == Texts(files).Keys
    {
      hide Keep, Valid;
      present := {};
      var i := 0;
      while i < |files|
        invariant i <= |files| && Valid()
        invariant parsed == Refresh(old(parsed), files[..i], hashContent)
        invariant present == Texts(files[..i]).Keys
      {
        assert files[..i + 1][..i] == files[..i];
        present := present + {files[i].path};
        ParseIfChanged(files[i], broad);
        i := i + 1;
      }
      assert files[..i] == files;
    }

    method ParseIfChanged(f: SourceFile, broad: bool)
      requires Valid() && lastBroad == Some(broad)
      modifies `fileSites, `hashes, `parsed
      ensures Valid() && parsed == Keep(old(parsed), f, hashContent)
    {
      var h := hashContent(f.text);
      if !(f.path in hashes && hashes[f.path] == h && f.path in fileSites) {
        fileSites := fileSites[f.path := extractFile(f.path, f.text, broad)];
        hashes := hashes[f.path := h];
        parsed := parsed[f.path := f.text];
      }
    }

    /** Files that were not walked are forgotten. */
    method Prune(present: set<string>)
      requires Valid()
      modifies `fileSites, `hashes, `parsed
      ensures Valid() && parsed == map p | p in old(parsed) && p in present :: old(parsed)[p]
    {
      ghost var before := parsed;
      var keys := fileSites.Keys;
      while keys != {}
        invariant Valid() && keys <= before.Keys
        invariant parsed.Keys <= before.Keys && forall p <- parsed :: parsed[p] == before[p]
        invariant forall p <- before :: p in parsed <==> p in keys || p in present
        decreases keys
      {
        var p :| p in keys;
        if p !in present {
          fileSites := fileSites - {p};
          hashes := hashes - {p};
          parsed := parsed - {p};
        }
        keys := keys - {p};
      }
    }
  }
}
