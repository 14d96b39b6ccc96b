/**
 * The GitHub tree materializer: it lists a repository directory through the
 * contents API, downloads every file-typed ".proto" entry into a scratch
 * directory that mirrors the remote layout, and descends into every "dir"
 * entry.
 *
 * The remote side is a value: a `Listing` is the answer to one listing
 * request, and each entry carries the answer its own follow-up request gets
 * (the listing of a directory, the bytes of a file). The local scratch area
 * is a `Scratch` object: its directories, its files, the order in which
 * files were created and the HTTP requests logged.
 */
module Github {
  import opened Wrappers
  import opened Paths
  import Utilities

  const ProtoBuilderTempDir := "ProtoPort"
  const ProtoExtension := ".proto"
  const WebPrefix := "https://github.com/"
  const ApiPrefix := "https://api.github.com/repos/"

  // ---------------------------------------------------------------------
  // Request construction

  /** `pat` occurs in `s` starting at index `i`. */
  predicate OccursAt(s: string, pat: string, i: nat)
  {
    i + |pat| <= |s| && s[i..i + |pat|] == pat
  }

  /** Dropping the first character shifts every occurrence one place to the left. */
  lemma OccursShift(s: string, pat: string, i: nat)
    requires s != []
    ensures OccursAt(s[1..], pat, i) <==> OccursAt(s, pat, i + 1)
  {
    if i + |pat| <= |s[1..]| {
      var shifted, original := s[1..][i..i + |pat|], s[i + 1..i + 1 + |pat|];
      assert forall j :: 0 <= j < |pat| ==> shifted[j] == original[j];
      assert shifted == original;
    }
  }

  /** `strings.Replace(s, pat, repl, 1)`: the leftmost occurrence of `pat` is replaced. */
  function ReplaceFirst(s: string, pat: string, repl: string): string
    decreases |s|
  {
    if |pat| <= |s| && s[..|pat|] == pat then repl + s[|pat|..]
    else if s == [] then s
    else [s[0]] + ReplaceFirst(s[1..], pat, repl)
  }

  /** The first occurrence is the one replaced; what surrounds it is kept. */
  lemma {:induction false} ReplaceFirstOccurrence(p: string, pat: string, q: string, repl: string)
    requires forall i :: 0 <= i < |p| ==> !OccursAt(p + pat + q, pat, i)
    ensures ReplaceFirst(p + pat + q, pat, repl) == p + repl + q
    decreases |p|
  {
    var s := p + pat + q;
    if p == [] {
      assert s[..|pat|] == pat && s[|pat|..] == q;
    } else {
      assert !OccursAt(s, pat, 0);
      var p' := p[1..];
      assert s[1..] == p' + pat + q;
      forall i | 0 <= i < |p'| ensures !OccursAt(p' + pat + q, pat, i) {
        OccursShift(s, pat, i);
      }
      ReplaceFirstOccurrence(p', pat, q, repl);
    }
  }

  /** Without any occurrence the string is left as it is. */
  lemma {:induction false} ReplaceFirstAbsent(s: string, pat: string, repl: string)
    requires forall i :: 0 <= i <= |s| ==> !OccursAt(s, pat, i)
    ensures ReplaceFirst(s, pat, repl) == s
    decreases |s|
  {
    assert !OccursAt(s, pat, 0);
    if s != [] {
      forall i | 0 <= i <= |s[1..]| ensures !OccursAt(s[1..], pat, i) {
        OccursShift(s, pat, i);
      }
      ReplaceFirstAbsent(s[1..], pat, repl);
      assert s == [s[0]] + s[1..];
    }
  }

  /** The contents endpoint of `GithubGetContent`. */
  function ContentsUrl(url: string, subpath: string): string
  {
    var api := ReplaceFirst(url, WebPrefix, ApiPrefix);
    if subpath != "" then api + "/contents/" + subpath else api + "/contents"
  }

  /**
   * The first "https://github.com/" is rewritten to the API host, then
   * "/contents" is appended, and "/subpath" when the subpath is not empty.
   */
  lemma ContentsUrlRewritesFirstPrefix(p: string, q: string, subpath: string)
    requires forall i :: 0 <= i < |p| ==> !OccursAt(p + WebPrefix + q, WebPrefix, i)
    ensures ContentsUrl(p + WebPrefix + q, subpath) ==
      p + ApiPrefix + q + "/contents" + (if subpath != "" then "/" + subpath else "")
  {
    ReplaceFirstOccurrence(p, WebPrefix, q, ApiPrefix);
  }

  /** The usual case: a repository URL `https://github.com/owner/repo`. */
  lemma ContentsUrlOfRepository(repo: string, subpath: string)
    ensures ContentsUrl(WebPrefix + repo, subpath) ==
      ApiPrefix + repo + "/contents" + (if subpath != "" then "/" + subpath else "")
  {
    assert WebPrefix + repo == [] + WebPrefix + repo;
    ContentsUrlRewritesFirstPrefix([], repo, subpath);
  }

  datatype Request = Request(url: string, headers: map<string, string>)

  /** The listing request: JSON accept header, bearer token only for private repositories. */
  function ListingRequest(url: string, subpath: string, pat: string, publicRepo: bool): (r: Request)
    ensures r.url == ContentsUrl(url, subpath)
    ensures "Accept" in r.headers && r.headers["Accept"] == "application/vnd.github+json"
    ensures "Authorization" in r.headers <==> !publicRepo
    ensures !publicRepo ==> r.headers["Authorization"] == "Bearer " + pat
    ensures r.headers.Keys <= {"Accept", "Authorization"}
  {
    var accept := map["Accept" := "application/vnd.github+json"];
    Request(ContentsUrl(url, subpath), if publicRepo then accept else accept["Authorization" := "Bearer " + pat])
  }

  /** The raw file request: it carries the bearer header even for public repositories. */
  function FileRequest(fileUrl: string, pat: string): (r: Request)
    ensures r.url == fileUrl
    ensures r.headers.Keys == {"Accept", "Authorization"}
    ensures r.headers["Accept"] == "application/vnd.github.raw+json"
    ensures r.headers["Authorization"] == "Bearer " + pat
  {
    Request(fileUrl, map["Accept" := "application/vnd.github.raw+json", "Authorization" := "Bearer " + pat])
  }

  /** The subpath a "dir" entry is listed under. */
  function ChildSubPath(subPath: string, name: string): string
  {
    if subPath != "" then subPath + "/" + name else name
  }

  /** A subpath whose pieces, joined again, give the subpath back. */
  predicate Resolves(subPath: string)
  {
    subPath == "" || JoinAll(Split(subPath)) == subPath
  }

  /** Descending by a proper name appends exactly that name to the split subpath. */
  lemma ChildSubPathSplits(subPath: string, name: string)
    requires IsComponent(name)
    ensures Split(ChildSubPath(subPath, name)) == (if subPath == "" then [] else Split(subPath)) + [name]
  {
    if subPath == "" {
      SplitComponent(name);
    } else {
      SplitAppend(subPath, name);
    }
  }

  lemma ChildSubPathResolves(subPath: string, name: string)
    requires Resolves(subPath) && IsComponent(name)
    ensures Resolves(ChildSubPath(subPath, name))
  {
    ChildSubPathSplits(subPath, name);
    var parts := Split(ChildSubPath(subPath, name));
    assert parts[..|parts| - 1] == if subPath == "" then [] else Split(subPath);
  }

  // ---------------------------------------------------------------------
  // The folder structure below the scratch root

  /** The folder for the first `k` pieces of a split subpath. */
  function Folder(root: string, parts: seq<string>, k: nat): string
    requires k <= |parts|
  {
    Join(root, JoinAll(parts[..k]))
  }

  /** The loop of `generateFolderStructure` after `n` pieces: each absent folder is made if its parent exists. */
  function Folders(dirs: set<string>, root: string, parts: seq<string>, n: nat): set<string>
    requires n <= |parts|
  {
    if n == 0 then dirs
    else
      var d := Folders(dirs, root, parts, n - 1);
      var folder := Folder(root, parts, n);
      if folder !in d && Folder(root, parts, n - 1) in d then d + {folder} else d
  }

  function FolderStructure(dirs: set<string>, root: string, subPath: string): set<string>
  {
    Folders(dirs, root, Split(subPath), |Split(subPath)|)
  }

  /** Only prefix folders are ever added, and nothing is taken away. */
  lemma {:induction false} FoldersBounds(dirs: set<string>, root: string, parts: seq<string>, n: nat)
    requires n <= |parts|
    ensures dirs <= Folders(dirs, root, parts, n)
    ensures forall f :: f in Folders(dirs, root, parts, n) ==>
      f in dirs || exists k :: 1 <= k <= n && f == Folder(root, parts, k)
  {
    if n > 0 {
      FoldersBounds(dirs, root, parts, n - 1);
    }
  }

  /** When the scratch root exists, every prefix folder exists afterwards. */
  lemma {:induction false} FoldersReach(dirs: set<string>, root: string, parts: seq<string>, n: nat)
    requires n <= |parts| && root in dirs
    ensures forall k :: 0 <= k <= n ==> Folder(root, parts, k) in Folders(dirs, root, parts, n)
  {
    if n > 0 {
      FoldersReach(dirs, root, parts, n - 1);
      FoldersBounds(Folders(dirs, root, parts, n - 1), root, parts, 0);
    } else {
      assert parts[..0] == [];
    }
  }

  /** Each folder extends the shorter ones. */
  lemma {:induction false} FolderPrefix(root: string, parts: seq<string>, i: nat, j: nat)
    requires i <= j <= |parts|
    ensures JoinAll(parts[..i]) <= JoinAll(parts[..j])
    ensures Folder(root, parts, i) <= Folder(root, parts, j)
    decreases j
  {
    if i < j {
      FolderPrefix(root, parts, i, j - 1);
      assert parts[..j][..j - 1] == parts[..j - 1];
      JoinExtends(JoinAll(parts[..j - 1]), parts[j - 1]);
    }
    JoinMonotone(root, JoinAll(parts[..i]), JoinAll(parts[..j]));
  }

  /** Two equal folders have only that folder between them. */
  lemma FolderBetween(root: string, parts: seq<string>, i: nat, j: nat, k: nat)
    requires i <= j <= k <= |parts|
    requires Folder(root, parts, i) == Folder(root, parts, k)
    ensures Folder(root, parts, j) == Folder(root, parts, i)
  {
    FolderPrefix(root, parts, i, j);
    FolderPrefix(root, parts, j, k);
  }

  /** Whenever a folder's parent is present after the loop, so is the folder. */
  lemma {:induction false} FoldersClosed(dirs: set<string>, root: string, parts: seq<string>, m: nat, n: nat)
    requires 1 <= n <= m <= |parts|
    requires Folder(root, parts, n - 1) in Folders(dirs, root, parts, m)
    ensures Folder(root, parts, n) in Folders(dirs, root, parts, m)
    decreases m
  {
    var before := Folders(dirs, root, parts, m - 1);
    if Folder(root, parts, n - 1) !in before {
      FolderBetween(root, parts, n - 1, n, m);
    } else if n < m {
      FoldersClosed(dirs, root, parts, m - 1, n);
    }
  }

  lemma {:induction false} FoldersStable(dirs: set<string>, root: string, parts: seq<string>, m: nat, n: nat)
    requires n <= m <= |parts|
    ensures Folders(Folders(dirs, root, parts, m), root, parts, n) == Folders(dirs, root, parts, m)
  {
    if n > 0 {
      FoldersStable(dirs, root, parts, m, n - 1);
      if Folder(root, parts, n - 1) in Folders(dirs, root, parts, m) {
        FoldersClosed(dirs, root, parts, m, n);
      }
    }
  }

  /** Making the folder structure twice leaves the same directories as making it once. */
  lemma FolderStructureIdempotent(dirs: set<string>, root: string, subPath: string)
    ensures FolderStructure(FolderStructure(dirs, root, subPath), root, subPath) == FolderStructure(dirs, root, subPath)
  {
    var parts := Split(subPath);
    FoldersStable(dirs, root, parts, |parts|, |parts|);
  }

  /** From an existing root, the folder of a resolving subpath is made. */
  lemma FolderStructureMakesSubPath(dirs: set<string>, root: string, subPath: string)
    requires root in dirs && subPath != "" && Resolves(subPath)
    ensures dirs <= FolderStructure(dirs, root, subPath)
    ensures Join(root, subPath) in FolderStructure(dirs, root, subPath)
  {
    var parts := Split(subPath);
    FoldersReach(dirs, root, parts, |parts|);
    FoldersBounds(dirs, root, parts, |parts|);
    assert parts[..|parts|] == parts;
  }

  // ---------------------------------------------------------------------
  // The remote tree and the local scratch area

  type Bytes = seq<bv8>

  /** The answer to a raw file request: the bytes, or a failed request or read. */
  datatype Fetch = FetchFailed | Fetched(body: Bytes)

  /** One entry of a listing, with the answer every follow-up request for it gets. */
  datatype Content = Content(kind: string, name: string, url: string, body: Fetch, children: Listing)

  /** The answer to one listing request: entries, or a failed request, read or decode. */
  datatype Listing = ListingFailed | Listed(entries: seq<Content>)

  datatype Error = ListingError | FetchError | CreateError(path: string)

  /** `(dir, nil)` or `("", err)`. */
  datatype Outcome = Materialized(dir: string) | Failed(error: Error)

  datatype Source = Source(url: string, pat: string, publicRepo: bool)

  /** The scratch area: directories, files, files created in order, requests logged. */
  datatype Area = Area(dirs: set<string>, files: map<string, Bytes>, created: seq<string>, requests: seq<Request>)

  /** The state of one loop: where it stands, its error, the files it deferred removing. */
  datatype Progress = Progress(area: Area, error: Option<Error>, deferred: set<string>)

  /** A "file" entry whose name ends in ".proto" is downloaded; other non-"dir" entries are skipped. */
  predicate IsProtoFile(c: Content)
  {
    c.kind != "dir" && Utilities.CheckForFileExtension(c.name, ProtoExtension) && c.kind == "file"
  }

  /** Where one proto file goes, and the directory that must hold it. */
  function FileDir(root: string, subPath: string): string
  {
    if subPath != "" then Join(root, subPath) else root
  }

  function FilePath(root: string, subPath: string, name: string): string
  {
    if subPath != "" then Join(Join(root, subPath), name) else Join(root, name)
  }

  /** Download, make the folders, create the file (its directory must exist), write it. */
  function WriteFile(a: Area, root: string, subPath: string, c: Content, pat: string): (p: Progress)
    ensures p.area.dirs >= a.dirs && p.area.requests == a.requests + [FileRequest(c.url, pat)]
    ensures p.error.None? <==> c.body.Fetched? && FileDir(root, subPath) in p.area.dirs
    ensures p.error.None? ==> (p.deferred == {FilePath(root, subPath, c.name)} &&
      p.area.files == a.files[FilePath(root, subPath, c.name) := c.body.body] &&
      p.area.created == a.created + [FilePath(root, subPath, c.name)])
    ensures p.error.Some? ==> p.deferred == {} && p.area.files == a.files && p.area.created == a.created
  {
    var asked := a.(requests := a.requests + [FileRequest(c.url, pat)]);
    match c.body
    case FetchFailed => Progress(asked, Some(FetchError), {})
    case Fetched(body) =>
      var made := if subPath != "" then asked.(dirs := FolderStructure(asked.dirs, root, subPath)) else asked;
      FoldersBounds(asked.dirs, root, Split(subPath), |Split(subPath)|);
      var path := FilePath(root, subPath, c.name);
      if FileDir(root, subPath) !in made.dirs then Progress(made, Some(CreateError(path)), {})
      else Progress(made.(files := made.files[path := body], created := made.created + [path]), None, {path})
  }

  /**
   * `GithubReadAndGenrateProtos(url, subPath, ...)` against the answer
   * `listing`. With `deferRemove` the files this call wrote are removed when
   * it returns, as the code does; without it they are kept.
   */
  function Level(a: Area, src: Source, root: string, subPath: string, listing: Listing, deferRemove: bool): (r: (Area, Outcome))
    ensures listing.ListingFailed? ==> r.1 == Failed(ListingError)
    ensures r.1.Materialized? ==> r.1.dir == root
    ensures a.dirs <= r.0.dirs && a.created <= r.0.created
    decreases listing, if listing.Listed? then |listing.entries| + 1 else 0
  {
    var asked := a.(requests := a.requests + [ListingRequest(src.url, subPath, src.pat, src.publicRepo)]);
    match listing
    case ListingFailed => (asked, Failed(ListingError))
    case Listed(entries) =>
      var p := LevelEntries(asked, src, root, subPath, listing, |entries|, deferRemove);
      var area := if deferRemove then p.area.(files := p.area.files - p.deferred) else p.area;
      (area, if p.error.Some? then Failed(p.error.value) else Materialized(root))
  }

  /** The loop over the first `n` entries; an error at this level ends it. */
  function LevelEntries(a: Area, src: Source, root: string, subPath: string, listing: Listing, n: nat, deferRemove: bool): (p: Progress)
    requires listing.Listed? && n <= |listing.entries|
    ensures a.dirs <= p.area.dirs && a.created <= p.area.created
    decreases listing, n
  {
    if n == 0 then Progress(a, None, {})
    else
      var before := LevelEntries(a, src, root, subPath, listing, n - 1, deferRemove);
      if before.error.Some? then before
      else
        var step := VisitContent(before.area, src, root, subPath, listing.entries[n - 1], deferRemove);
        Progress(step.area, step.error, before.deferred + step.deferred)
  }

  /** One iteration: a "dir" is descended into (its outcome dropped), a proto file is written. */
  function VisitContent(a: Area, src: Source, root: string, subPath: string, c: Content, deferRemove: bool): (p: Progress)
    ensures a.dirs <= p.area.dirs && a.created <= p.area.created
    decreases c
  {
    if c.kind == "dir" then
      Progress(Level(a, src, root, ChildSubPath(subPath, c.name), c.children, deferRemove).0, None, {})
    else if IsProtoFile(c) then WriteFile(a, root, subPath, c, src.pat)
    else Progress(a, None, {})
  }

  // ---------------------------------------------------------------------
  // What the walk writes when every download succeeds

  /** Every "dir" has a proper name and every proto file's download succeeds. */
  predicate FetchableListing(listing: Listing)
    decreases listing, if listing.Listed? then |listing.entries| + 1 else 0
  {
    listing.Listed? ==> FetchableEntries(listing, |listing.entries|)
  }

  predicate FetchableEntries(listing: Listing, n: nat)
    requires listing.Listed? && n <= |listing.entries|
    decreases listing, n
  {
    n > 0 ==> FetchableEntries(listing, n - 1) && FetchableContent(listing.entries[n - 1])
  }

  predicate FetchableContent(c: Content)
    decreases c
  {
    (c.kind == "dir" ==> IsComponent(c.name) && FetchableListing(c.children)) &&
    (IsProtoFile(c) ==> c.body.Fetched?)
  }

  /** The files the walk writes, path to contents; a later write of a path wins. */
  function ProtoFilesListing(root: string, subPath: string, listing: Listing): map<string, Bytes>
    decreases listing, if listing.Listed? then |listing.entries| + 1 else 0
  {
    match listing
    case ListingFailed => map[]
    case Listed(entries) => ProtoFilesEntries(root, subPath, listing, |entries|)
  }

  function ProtoFilesEntries(root: string, subPath: string, listing: Listing, n: nat): map<string, Bytes>
    requires listing.Listed? && n <= |listing.entries|
    decreases listing, n
  {
    if n == 0 then map[]
    else ProtoFilesEntries(root, subPath, listing, n - 1) + ProtoFilesContent(root, subPath, listing.entries[n - 1])
  }

  function ProtoFilesContent(root: string, subPath: string, c: Content): map<string, Bytes>
    decreases c
  {
    if c.kind == "dir" then ProtoFilesListing(root, ChildSubPath(subPath, c.name), c.children)
    else if IsProtoFile(c) && c.body.Fetched? then map[FilePath(root, subPath, c.name) := c.body.body]
    else map[]
  }

  // ---------------------------------------------------------------------
  // Properties of the walk

  /** An error at this level of the loop is final for the level. */
  lemma {:induction false} LevelEntriesStaysFailed(a: Area, src: Source, root: string, subPath: string, listing: Listing, k: nat, n: nat, deferRemove: bool)
    requires listing.Listed? && k <= n <= |listing.entries|
    requires LevelEntries(a, src, root, subPath, listing, k, deferRemove).error.Some?
    ensures LevelEntries(a, src, root, subPath, listing, n, deferRemove) == LevelEntries(a, src, root, subPath, listing, k, deferRemove)
    decreases n
  {
    if n > k {
      LevelEntriesStaysFailed(a, src, root, subPath, listing, k, n - 1, deferRemove);
      var prev := LevelEntries(a, src, root, subPath, listing, n - 1, deferRemove);
      assert prev.error.Some?;
      assert LevelEntries(a, src, root, subPath, listing, n, deferRemove) == prev;
    }
  }

  /**
   * Only the proto files of the level itself decide its outcome: without
   * any, a readable level succeeds with the scratch root whatever happens below.
   */
  lemma {:induction false} LevelEntriesWithoutProtoFiles(a: Area, src: Source, root: string, subPath: string, listing: Listing, n: nat, deferRemove: bool)
    requires listing.Listed? && n <= |listing.entries|
    requires forall i :: 0 <= i < n ==> !IsProtoFile(listing.entries[i])
    ensures LevelEntries(a, src, root, subPath, listing, n, deferRemove).error == None
    decreases n
  {
    if n > 0 {
      LevelEntriesWithoutProtoFiles(a, src, root, subPath, listing, n - 1, deferRemove);
    }
  }

  /** Areas that differ at most in their files. */
  predicate SameButFiles(a1: Area, a2: Area)
  {
    a1.dirs == a2.dirs && a1.created == a2.created && a1.requests == a2.requests
  }

  /**
   * Files never steer the walk: with and without the deferred removals the
   * same requests are logged, the same files created, the same directories
   * made and the same outcome returned.
   */
  lemma {:induction false} LevelSameTrace(a1: Area, a2: Area, src: Source, root: string, subPath: string, listing: Listing)
    requires SameButFiles(a1, a2)
    ensures SameButFiles(Level(a1, src, root, subPath, listing, true).0, Level(a2, src, root, subPath, listing, false).0)
    ensures Level(a1, src, root, subPath, listing, true).1 == Level(a2, src, root, subPath, listing, false).1
    decreases listing, if listing.Listed? then |listing.entries| + 1 else 0
  {
    if listing.Listed? {
      var req := ListingRequest(src.url, subPath, src.pat, src.publicRepo);
      LevelEntriesSameTrace(a1.(requests := a1.requests + [req]), a2.(requests := a2.requests + [req]),
                            src, root, subPath, listing, |listing.entries|);
    }
  }

  lemma {:induction false} LevelEntriesSameTrace(a1: Area, a2: Area, src: Source, root: string, subPath: string, listing: Listing, n: nat)
    requires SameButFiles(a1, a2)
    requires listing.Listed? && n <= |listing.entries|
    ensures var p1 := LevelEntries(a1, src, root, subPath, listing, n, true);
            var p2 := LevelEntries(a2, src, root, subPath, listing, n, false);
            SameButFiles(p1.area, p2.area) && p1.error == p2.error && p1.deferred == p2.deferred
    decreases listing, n
  {
    if n > 0 {
      LevelEntriesSameTrace(a1, a2, src, root, subPath, listing, n - 1);
      var p1 := LevelEntries(a1, src, root, subPath, listing, n - 1, true);
      var p2 := LevelEntries(a2, src, root, subPath, listing, n - 1, false);
      if p1.error.None? {
        VisitContentSameTrace(p1.area, p2.area, src, root, subPath, listing.entries[n - 1]);
      }
    }
  }

  lemma {:induction false} VisitContentSameTrace(a1: Area, a2: Area, src: Source, root: string, subPath: string, c: Content)
    requires SameButFiles(a1, a2)
    ensures var p1 := VisitContent(a1, src, root, subPath, c, true);
            var p2 := VisitContent(a2, src, root, subPath, c, false);
            SameButFiles(p1.area, p2.area) && p1.error == p2.error && p1.deferred == p2.deferred
    decreases c
  {
    if c.kind == "dir" {
      LevelSameTrace(a1, a2, src, root, ChildSubPath(subPath, c.name), c.children);
    }
  }

  /** Every file of `a2` is a file of `a1` with the same contents. */
  predicate FilesWithin(a2: Area, a1: Area)
  {
    forall path :: path in a2.files ==> path in a1.files && a2.files[path] == a1.files[path]
  }

  /** The paths a walk from `a` to `b` created, in order. */
  function NewlyCreated(a: Area, b: Area): seq<string>
    requires a.created <= b.created
  {
    b.created[|a.created|..]
  }

  /**
   * What a loop with deferred removals keeps true from `a` to `p`: every
   * deferred path was created by it; every path it created is deferred or
   * gone; an old file it did not write is untouched; and every file not
   * deferred is an untouched old file.
   */
  predicate RemovalInvariant(a: Area, p: Progress)
    requires a.created <= p.area.created
  {
    var created := NewlyCreated(a, p.area);
    (forall path :: path in p.deferred ==> path in created) &&
    (forall path :: path in created ==> path in p.deferred || path !in p.area.files) &&
    (forall path :: path in a.files && path !in created ==>
      path in p.area.files && p.area.files[path] == a.files[path]) &&
    (forall path :: path in p.area.files && path !in p.deferred ==>
      path in a.files && p.area.files[path] == a.files[path])
  }

  /**
   * As written, the deferred removals leave no downloaded file behind: no
   * file is added and none is changed, every path the call created (an old
   * file it overwrote included) is gone, and every other old file stays.
   */
  lemma {:induction false} WrittenFilesDoNotSurvive(a: Area, src: Source, root: string, subPath: string, listing: Listing)
    ensures var r := Level(a, src, root, subPath, listing, true).0;
      FilesWithin(r, a) &&
      (forall path :: path in NewlyCreated(a, r) ==> path !in r.files) &&
      (forall path :: path in a.files && path !in NewlyCreated(a, r) ==>
        path in r.files && r.files[path] == a.files[path])
    decreases listing, if listing.Listed? then |listing.entries| + 1 else 0
  {
    if listing.Listed? {
      var asked := a.(requests := a.requests + [ListingRequest(src.url, subPath, src.pat, src.publicRepo)]);
      LevelEntriesOnlyOwnWrites(asked, src, root, subPath, listing, |listing.entries|);
    }
  }

  /** The loop of one level keeps `RemovalInvariant`. */
  lemma {:induction false} LevelEntriesOnlyOwnWrites(a: Area, src: Source, root: string, subPath: string, listing: Listing, n: nat)
    requires listing.Listed? && n <= |listing.entries|
    ensures RemovalInvariant(a, LevelEntries(a, src, root, subPath, listing, n, true))
    decreases listing, n, 1
  {
    if n > 0 {
      LevelEntriesOnlyOwnWrites(a, src, root, subPath, listing, n - 1);
      var before := LevelEntries(a, src, root, subPath, listing, n - 1, true);
      if before.error.None? {
        var c := listing.entries[n - 1];
        VisitContentOnlyOwnWrites(before.area, src, root, subPath, c);
        var step := VisitContent(before.area, src, root, subPath, c, true);
        RemovalInvariantCompose(a, before, step);
      }
    }
  }

  /** One iteration keeps `RemovalInvariant`. */
  lemma {:induction false} VisitContentOnlyOwnWrites(a: Area, src: Source, root: string, subPath: string, c: Content)
    ensures RemovalInvariant(a, VisitContent(a, src, root, subPath, c, true))
    decreases c
  {
    var p := VisitContent(a, src, root, subPath, c, true);
    if c.kind == "dir" {
      WrittenFilesDoNotSurvive(a, src, root, ChildSubPath(subPath, c.name), c.children);
    } else if IsProtoFile(c) {
      var path := FilePath(root, subPath, c.name);
      if p.error.None? {
        assert NewlyCreated(a, p.area) == [path];
      } else {
        assert NewlyCreated(a, p.area) == [];
      }
    } else {
      assert NewlyCreated(a, p.area) == [];
    }
  }

  /** `RemovalInvariant` from `a` to `before`, then from `before` to `step`, gives it for the two together. */
  lemma RemovalInvariantCompose(a: Area, before: Progress, step: Progress)
    requires a.created <= before.area.created <= step.area.created
    requires RemovalInvariant(a, before) && RemovalInvariant(before.area, step)
    ensures RemovalInvariant(a, Progress(step.area, step.error, before.deferred + step.deferred))
  {
    var all := NewlyCreated(a, step.area);
    var first, second := NewlyCreated(a, before.area), NewlyCreated(before.area, step.area);
    assert step.area.created == before.area.created + second;
    assert before.area.created == a.created + first;
    assert all == first + second;
  }

  /**
   * With the removals left out, a walk over a fetchable tree from an
   * existing scratch root succeeds and leaves exactly the file-typed
   * ".proto" entries, each at root/subpath/name, on top of what was there.
   */
  lemma {:induction false} KeptLevelWritesProtoFiles(a: Area, src: Source, root: string, subPath: string, listing: Listing)
    requires root in a.dirs && Resolves(subPath) && FetchableListing(listing)
    ensures Level(a, src, root, subPath, listing, false).1 == (if listing.Listed? then Materialized(root) else Failed(ListingError))
    ensures Level(a, src, root, subPath, listing, false).0.files == a.files + ProtoFilesListing(root, subPath, listing)
    ensures a.dirs <= Level(a, src, root, subPath, listing, false).0.dirs
    decreases listing, if listing.Listed? then |listing.entries| + 1 else 0
  {
    if listing.Listed? {
      var asked := a.(requests := a.requests + [ListingRequest(src.url, subPath, src.pat, src.publicRepo)]);
      KeptEntriesWriteProtoFiles(asked, src, root, subPath, listing, |listing.entries|);
    }
  }

  lemma {:induction false} KeptEntriesWriteProtoFiles(a: Area, src: Source, root: string, subPath: string, listing: Listing, n: nat)
    requires root in a.dirs && Resolves(subPath)
    requires listing.Listed? && n <= |listing.entries| && FetchableEntries(listing, n)
    ensures LevelEntries(a, src, root, subPath, listing, n, false).error == None
    ensures LevelEntries(a, src, root, subPath, listing, n, false).area.files == a.files + ProtoFilesEntries(root, subPath, listing, n)
    ensures a.dirs <= LevelEntries(a, src, root, subPath, listing, n, false).area.dirs
    decreases listing, n
  {
    if n > 0 {
      KeptEntriesWriteProtoFiles(a, src, root, subPath, listing, n - 1);
      var before := LevelEntries(a, src, root, subPath, listing, n - 1, false);
      var c := listing.entries[n - 1];
      KeptContentWritesProtoFile(before.area, src, root, subPath, c);
      MapUnionAssociative(a.files, ProtoFilesEntries(root, subPath, listing, n - 1), ProtoFilesContent(root, subPath, c));
    }
  }

  lemma MapUnionAssociative(m1: map<string, Bytes>, m2: map<string, Bytes>, m3: map<string, Bytes>)
    ensures m1 + m2 + m3 == m1 + (m2 + m3)
  {
  }

  lemma {:induction false} KeptContentWritesProtoFile(a: Area, src: Source, root: string, subPath: string, c: Content)
    requires root in a.dirs && Resolves(subPath) && FetchableContent(c)
    ensures VisitContent(a, src, root, subPath, c, false).error == None
    ensures VisitContent(a, src, root, subPath, c, false).area.files == a.files + ProtoFilesContent(root, subPath, c)
    ensures a.dirs <= VisitContent(a, src, root, subPath, c, false).area.dirs
    decreases c
  {
    if c.kind == "dir" {
      ChildSubPathResolves(subPath, c.name);
      KeptLevelWritesProtoFiles(a, src, root, ChildSubPath(subPath, c.name), c.children);
    } else if IsProtoFile(c) {
      WriteFileClean(a, root, subPath, c, src.pat);
    }
  }

  /** A download that succeeds, below an existing root, writes its file at the mirrored path. */
  lemma WriteFileClean(a: Area, root: string, subPath: string, c: Content, pat: string)
    requires root in a.dirs && Resolves(subPath) && c.body.Fetched?
    ensures WriteFile(a, root, subPath, c, pat).error == None
    ensures WriteFile(a, root, subPath, c, pat).area.files == a.files + map[FilePath(root, subPath, c.name) := c.body.body]
  {
    if subPath != "" {
      FolderStructureMakesSubPath(a.dirs, root, subPath);
    }
    var path := FilePath(root, subPath, c.name);
    assert a.files + map[path := c.body.body] == a.files[path := c.body.body];
  }

  const ExampleA := Content("file", "a.proto", "raw/a", Fetched([1]), ListingFailed)
  const ExampleB := Content("file", "b.proto", "raw/b", Fetched([2]), ListingFailed)
  const ExampleReadme := Content("file", "readme.md", "raw/r", Fetched([3]), ListingFailed)
  const ExampleSub := Listed([ExampleB, ExampleReadme])
  const ExampleDir := Content("dir", "sub", "raw/sub", FetchFailed, ExampleSub)

  /** A remote tree with a.proto at the top and sub/b.proto, sub/readme.md below it. */
  const ExampleTree := Listed([ExampleA, ExampleDir])

  lemma ExampleEntries()
    ensures IsProtoFile(ExampleA) && IsProtoFile(ExampleB) && !IsProtoFile(ExampleReadme)
    ensures ExampleDir.kind == "dir" && IsComponent("sub") && Resolves("sub")
  {
    ProtoName("a");
    ProtoName("b");
    ReadmeName();
    SubName();
  }

  lemma ProtoName(stem: string)
    ensures Utilities.CheckForFileExtension(stem + ".proto", ProtoExtension)
  {
    Utilities.ExtensionOfConcatenation(stem, ProtoExtension);
  }

  lemma ReadmeName()
    ensures !Utilities.CheckForFileExtension("readme.md", ProtoExtension)
  {
    var name := "readme.md";
    assert name[|name| - 1] == 'd' != ProtoExtension[5];
  }

  lemma SubName()
    ensures IsComponent("sub") && Resolves("sub")
  {
    var name := "sub";
    assert forall i :: 0 <= i < |name| ==> name[i] != '/';
    SplitComponent(name);
  }

  lemma ExampleFetchable()
    ensures FetchableListing(ExampleSub) && FetchableListing(ExampleTree)
  {
    ExampleEntries();
    assert ExampleSub.entries[0] == ExampleB && ExampleSub.entries[1] == ExampleReadme;
    assert FetchableEntries(ExampleSub, 1);
    assert FetchableEntries(ExampleSub, 2);
    assert FetchableContent(ExampleDir);
    assert ExampleTree.entries[0] == ExampleA && ExampleTree.entries[1] == ExampleDir;
    assert FetchableEntries(ExampleTree, 1);
    assert FetchableEntries(ExampleTree, 2);
  }

  /** The first step of a level that starts with the proto file `c` is writing `c`. */
  lemma FirstEntryWrites(a: Area, src: Source, root: string, subPath: string, listing: Listing, c: Content, deferRemove: bool)
    requires listing.Listed? && |listing.entries| >= 1 && listing.entries[0] == c && IsProtoFile(c)
    ensures LevelEntries(a, src, root, subPath, listing, 1, deferRemove) == WriteFile(a, root, subPath, c, src.pat)
  {
    var v := WriteFile(a, root, subPath, c, src.pat);
    assert {} + v.deferred == v.deferred;
  }

  /** An entry that is neither a "dir" nor a proto file leaves the loop where it stands. */
  lemma SkippedEntry(a: Area, src: Source, root: string, subPath: string, listing: Listing, n: nat, deferRemove: bool)
    requires listing.Listed? && 1 <= n <= |listing.entries|
    requires listing.entries[n - 1].kind != "dir" && !IsProtoFile(listing.entries[n - 1])
    requires LevelEntries(a, src, root, subPath, listing, n - 1, deferRemove).error == None
    ensures LevelEntries(a, src, root, subPath, listing, n, deferRemove) == LevelEntries(a, src, root, subPath, listing, n - 1, deferRemove)
  {
    var before := LevelEntries(a, src, root, subPath, listing, n - 1, deferRemove);
    assert before.deferred + {} == before.deferred;
  }

  /** A "dir" entry hands the loop's area to the walk of the subdirectory. */
  lemma DirEntry(a: Area, src: Source, root: string, subPath: string, listing: Listing, n: nat, deferRemove: bool)
    requires listing.Listed? && 1 <= n <= |listing.entries| && listing.entries[n - 1].kind == "dir"
    requires LevelEntries(a, src, root, subPath, listing, n - 1, deferRemove).error == None
    ensures var before := LevelEntries(a, src, root, subPath, listing, n - 1, deferRemove);
      var c := listing.entries[n - 1];
      LevelEntries(a, src, root, subPath, listing, n, deferRemove) ==
        Progress(Level(before.area, src, root, ChildSubPath(subPath, c.name), c.children, deferRemove).0, None, before.deferred)
  {
    var before := LevelEntries(a, src, root, subPath, listing, n - 1, deferRemove);
    assert before.deferred + {} == before.deferred;
  }

  /** A proto-file entry continues the loop with the outcome of writing it. */
  lemma FileEntry(a: Area, src: Source, root: string, subPath: string, listing: Listing, n: nat, deferRemove: bool)
    requires listing.Listed? && 1 <= n <= |listing.entries|
    requires listing.entries[n - 1].kind != "dir" && IsProtoFile(listing.entries[n - 1])
    requires LevelEntries(a, src, root, subPath, listing, n - 1, deferRemove).error == None
    ensures var before := LevelEntries(a, src, root, subPath, listing, n - 1, deferRemove);
      var w := WriteFile(before.area, root, subPath, listing.entries[n - 1], src.pat);
      LevelEntries(a, src, root, subPath, listing, n, deferRemove) == Progress(w.area, w.error, before.deferred + w.deferred)
  {
  }

  /** The walk of the "sub" level: it creates sub/b.proto and passes over readme.md. */
  lemma ExampleSubLevel(a: Area, src: Source, root: string, deferRemove: bool)
    requires root in a.dirs
    ensures var r := Level(a, src, root, "sub", ExampleSub, deferRemove);
      r.1 == Materialized(root) && r.0.created == a.created + [FilePath(root, "sub", "b.proto")]
  {
    ExampleEntries();
    var asked := a.(requests := a.requests + [ListingRequest(src.url, "sub", src.pat, src.publicRepo)]);
    FolderStructureMakesSubPath(asked.(requests := asked.requests + [FileRequest(ExampleB.url, src.pat)]).dirs, root, "sub");
    FirstEntryWrites(asked, src, root, "sub", ExampleSub, ExampleB, deferRemove);
    var p1 := LevelEntries(asked, src, root, "sub", ExampleSub, 1, deferRemove);
    assert p1.error == None && p1.area.created == a.created + [FilePath(root, "sub", "b.proto")];
    SkippedEntry(asked, src, root, "sub", ExampleSub, 2, deferRemove);
  }

  /** The loop over the example tree's top level, from an area holding the scratch root. */
  lemma ExampleTopLevel(asked: Area, src: Source, root: string, deferRemove: bool)
    requires root in asked.dirs
    ensures var p := LevelEntries(asked, src, root, "", ExampleTree, 2, deferRemove);
      p.error == None && p.area.created == asked.created + [FilePath(root, "", "a.proto"), FilePath(root, "sub", "b.proto")]
  {
    var p1 := LevelEntries(asked, src, root, "", ExampleTree, 1, deferRemove);
    assert p1.error == None && p1.area.created == asked.created + [FilePath(root, "", "a.proto")] && root in p1.area.dirs by {
      ExampleEntries();
      FirstEntryWrites(asked, src, root, "", ExampleTree, ExampleA, deferRemove);
    }
    var p2 := LevelEntries(asked, src, root, "", ExampleTree, 2, deferRemove);
    assert p2 == Progress(Level(p1.area, src, root, "sub", ExampleSub, deferRemove).0, None, p1.deferred) by {
      DirEntry(asked, src, root, "", ExampleTree, 2, deferRemove);
      assert ExampleTree.entries[1] == ExampleDir;
    }
    ExampleSubLevel(p1.area, src, root, deferRemove);
  }

  /**
   * As written, the walk over the example tree from an existing, empty
   * scratch root reports success and creates both proto files, yet leaves
   * no file at all.
   */
  lemma ExampleTreeAsWritten(src: Source, root: string)
    ensures var r := Level(Area({root}, map[], [], []), src, root, "", ExampleTree, true);
      r.1 == Materialized(root) &&
      r.0.created == [FilePath(root, "", "a.proto"), FilePath(root, "sub", "b.proto")] &&
      r.0.files == map[]
  {
    var a := Area({root}, map[], [], []);
    var r := Level(a, src, root, "", ExampleTree, true);
    assert r.0.files == map[] by {
      WrittenFilesDoNotSurvive(a, src, root, "", ExampleTree);
    }
    var asked := a.(requests := a.requests + [ListingRequest(src.url, "", src.pat, src.publicRepo)]);
    ExampleTopLevel(asked, src, root, true);
  }

  /**
   * As written, an old file at the path of a downloaded proto file is
   * overwritten and then removed with it, while any other old file stays.
   */
  lemma ExampleOverwriteRemoved(src: Source, root: string, kept: string)
    requires kept != FilePath(root, "", "a.proto")
    ensures var path := FilePath(root, "", "a.proto");
      var r := Level(Area({root}, map[path := [9], kept := [7]], [], []), src, root, "", Listed([ExampleA]), true);
      r.1 == Materialized(root) && r.0.created == [path] && r.0.files == map[kept := [7]]
  {
    var path := FilePath(root, "", "a.proto");
    var a := Area({root}, map[path := [9], kept := [7]], [], []);
    var asked := a.(requests := a.requests + [ListingRequest(src.url, "", src.pat, src.publicRepo)]);
    ExampleEntries();
    FirstEntryWrites(asked, src, root, "", Listed([ExampleA]), ExampleA, true);
    var w := WriteFile(asked, root, "", ExampleA, src.pat);
    assert w.error.None? && w.deferred == {path};
    OverwrittenThenRemoved(path, kept, [9], [7], [1]);
  }

  lemma OverwrittenThenRemoved(path: string, kept: string, before: Bytes, other: Bytes, written: Bytes)
    requires kept != path
    ensures map[path := before, kept := other][path := written] - {path} == map[kept := other]
  {
    var m := map[path := before, kept := other][path := written] - {path};
    assert m.Keys == {kept};
  }

  lemma ExampleSubFiles(root: string)
    ensures ProtoFilesListing(root, "sub", ExampleSub) == map[FilePath(root, "sub", "b.proto") := [2]]
  {
    var b := map[FilePath(root, "sub", "b.proto") := [2]];
    ExampleBFiles(root);
    ExampleReadmeFiles(root);
    assert ExampleSub.entries[0] == ExampleB && ExampleSub.entries[1] == ExampleReadme;
    var sub1 := ProtoFilesEntries(root, "sub", ExampleSub, 1);
    assert sub1 == b by {
      assert ProtoFilesEntries(root, "sub", ExampleSub, 0) == map[];
      assert sub1 == map[] + b;
    }
    assert ProtoFilesEntries(root, "sub", ExampleSub, 2) == sub1 + map[];
  }

  lemma ExampleBFiles(root: string)
    ensures ProtoFilesContent(root, "sub", ExampleB) == map[FilePath(root, "sub", "b.proto") := [2]]
  {
    ProtoName("b");
  }

  lemma ExampleReadmeFiles(root: string)
    ensures ProtoFilesContent(root, "sub", ExampleReadme) == map[]
  {
    ReadmeName();
  }

  /** The proto files of the example tree, at their mirrored paths. */
  lemma ExampleProtoFiles(root: string)
    ensures ProtoFilesListing(root, "", ExampleTree) ==
      map[FilePath(root, "", "a.proto") := [1], FilePath(root, "sub", "b.proto") := [2]]
  {
    var sub := ProtoFilesListing(root, "sub", ExampleSub);
    ExampleSubFiles(root);
    var a := map[FilePath(root, "", "a.proto") := [1]];
    assert ProtoFilesContent(root, "", ExampleA) == a by {
      ExampleEntries();
    }
    assert ExampleTree.entries[0] == ExampleA && ExampleTree.entries[1] == ExampleDir;
    assert ProtoFilesEntries(root, "", ExampleTree, 0) == map[];
    var top1 := ProtoFilesEntries(root, "", ExampleTree, 1);
    assert top1 == map[] + a;
    assert ProtoFilesContent(root, "", ExampleDir) == sub by {
      assert ExampleDir.kind == "dir" && ChildSubPath("", ExampleDir.name) == "sub";
    }
    assert ProtoFilesEntries(root, "", ExampleTree, 2) == top1 + sub;
  }

  /** With the files kept, exactly the two proto files are left, at their mirrored paths. */
  lemma ExampleTreeKept(src: Source, root: string)
    ensures var r := Level(Area({root}, map[], [], []), src, root, "", ExampleTree, false);
      r.1 == Materialized(root) &&
      r.0.files == map[FilePath(root, "", "a.proto") := [1], FilePath(root, "sub", "b.proto") := [2]]
  {
    ExampleFetchable();
    KeptLevelWritesProtoFiles(Area({root}, map[], [], []), src, root, "", ExampleTree);
    ExampleProtoFiles(root);
    var files: map<string, Bytes> := map[];
    assert files + map[FilePath(root, "", "a.proto") := [1], FilePath(root, "sub", "b.proto") := [2]] ==
      map[FilePath(root, "", "a.proto") := [1], FilePath(root, "sub", "b.proto") := [2]];
  }

  // ---------------------------------------------------------------------
  // The scratch directory object

  class Scratch {
    /** `TempDir/ProtoPort`. */
    const root: string
    var dirs: set<string>
    var files: map<string, Bytes>
    var created: seq<string>
    var requests: seq<Request>

    function State(): Area
      reads this
    {
      Area(dirs, files, created, requests)
    }

    constructor (tempDir: string, existingDirs: set<string>, existingFiles: map<string, Bytes>)
      ensures root == Join(tempDir, ProtoBuilderTempDir)
      ensures State() == Area(existingDirs, existingFiles, [], [])
    {
      root := Join(tempDir, ProtoBuilderTempDir);
      dirs, files, created, requests := existingDirs, existingFiles, [], [];
    }

    /** Issues the listing request; `response` is the answer it gets. */
    method GithubGetContent(url: string, subpath: string, pat: string, publicRepo: bool, response: Listing)
      returns (contents: seq<Content>, ok: bool)
      modifies this
      ensures State() == old(State()).(requests := old(requests) + [ListingRequest(url, subpath, pat, publicRepo)])
      ensures ok == response.Listed? && (ok ==> contents == response.entries)
    {
      var endpoint := ContentsUrl(url, subpath);
      var headers := map["Accept" := "application/vnd.github+json"];
      if !publicRepo {
        headers := headers["Authorization" := "Bearer " + pat];
      }
      requests := requests + [Request(endpoint, headers)];
      if response.ListingFailed? {
        return [], false;
      }
      return response.entries, true;
    }

    /** `generateFolderStructure`: makes root/p1, root/p1/p2, ... for the pieces of `subPath`. */
    method GenerateFolderStructure(subPath: string)
      modifies this
      ensures State() == old(State()).(dirs := FolderStructure(old(dirs), root, subPath))
    {
      var paths := Split(subPath);
      for i := 0 to |paths|
        invariant State() == old(State()).(dirs := Folders(old(dirs), root, paths, i))
      {
        var folder := Join(root, JoinAll(paths[..i + 1]));
        if folder !in dirs {
          // os.Mkdir succeeds only inside an existing directory
          if Join(root, JoinAll(paths[..i])) in dirs {
            dirs := dirs + {folder};
          }
        }
      }
    }

    /** The proto-file branch of the loop: fetch, make folders, create and write. */
    method FetchAndWrite(subPath: string, content: Content, pat: string) returns (path: string, error: Option<Error>)
      modifies this
      ensures Progress(State(), error, if error.None? then {path} else {}) == WriteFile(old(State()), root, subPath, content, pat)
    {
      requests := requests + [FileRequest(content.url, pat)];
      if content.body.FetchFailed? {
        return "", Some(FetchError);
      }
      var filePath: string;
      if subPath != "" {
        GenerateFolderStructure(subPath);
        filePath := Join(Join(root, subPath), content.name);
      } else {
        filePath := Join(root, content.name);
      }
      // os.Create fails unless the directory that is to hold the file exists
      if FileDir(root, subPath) !in dirs {
        return "", Some(CreateError(filePath));
      }
      files := files[filePath := content.body.body];
      created := created + [filePath];
      return filePath, None;
    }

    /**
     * One iteration of the loop: a "dir" is walked (its outcome dropped), a
     * file-typed ".proto" entry is downloaded and written, anything else is
     * skipped. `written` is the file to remove when the level returns.
     */
    method ProcessContent(githubUrl: string, subPath: string, pat: string, publicRepo: bool, content: Content, deferRemove: bool)
      returns (written: set<string>, error: Option<Error>)
      modifies this
      ensures Progress(State(), error, written) ==
        VisitContent(old(State()), Source(githubUrl, pat, publicRepo), root, subPath, content, deferRemove)
      decreases content, 0
    {
      if content.kind == "dir" {
        var child := ChildSubPath(subPath, content.name);
        if deferRemove {
          var _ := GithubReadAndGenrateProtos(githubUrl, child, pat, publicRepo, content.children);
        } else {
          var _ := GithubReadAndGenerateProtosKeepingFiles(githubUrl, child, pat, publicRepo, content.children);
        }
        return {}, None;
      } else if Utilities.CheckForFileExtension(content.name, ProtoExtension) && content.kind == "file" {
        var path, err := FetchAndWrite(subPath, content, pat);
        if err.Some? {
          return {}, err;
        }
        return {path}, None;
      }
      return {}, None;
    }

    /** The deferred `os.Remove` calls of a returning level. */
    method RunDeferredRemovals(deferred: set<string>)
      modifies this
      ensures State() == old(State()).(files := old(files) - deferred)
    {
      files := files - deferred;
    }

    /**
     * As the code has it: every file written by this call is removed again
     * when the call returns, on success and on error alike.
     */
    method GithubReadAndGenrateProtos(githubUrl: string, subPath: string, pat: string, publicRepo: bool, listing: Listing)
      returns (result: Outcome)
      modifies this
      ensures (State(), result) == Level(old(State()), Source(githubUrl, pat, publicRepo), root, subPath, listing, true)
      decreases listing, 1
    {
      var contents, ok := GithubGetContent(githubUrl, subPath, pat, publicRepo, listing);
      if !ok {
        return Failed(ListingError);
      }
      var deferred, error := ProcessEntries(githubUrl, subPath, pat, publicRepo, listing, contents, true);
      // the deferred removals run on every return, the error return included
      RunDeferredRemovals(deferred);
      return if error.Some? then Failed(error.value) else Materialized(root);
    }

    /** The same walk with the downloaded files left in place. */
    method GithubReadAndGenerateProtosKeepingFiles(githubUrl: string, subPath: string, pat: string, publicRepo: bool, listing: Listing)
      returns (result: Outcome)
      modifies this
      ensures (State(), result) == Level(old(State()), Source(githubUrl, pat, publicRepo), root, subPath, listing, false)
      decreases listing, 1
    {
      var contents, ok := GithubGetContent(githubUrl, subPath, pat, publicRepo, listing);
      if !ok {
        return Failed(ListingError);
      }
      var _, error := ProcessEntries(githubUrl, subPath, pat, publicRepo, listing, contents, false);
      return if error.Some? then Failed(error.value) else Materialized(root);
    }

    /**
     * The `for` loop over the listed entries, stopping at the first error
     * of this level. `written` collects the files to remove on return.
     */
    method ProcessEntries(githubUrl: string, subPath: string, pat: string, publicRepo: bool, listing: Listing,
                          contents: seq<Content>, deferRemove: bool)
      returns (written: set<string>, error: Option<Error>)
      requires listing.Listed? && contents == listing.entries
      modifies this
      ensures Progress(State(), error, written) ==
        LevelEntries(old(State()), Source(githubUrl, pat, publicRepo), root, subPath, listing, |contents|, deferRemove)
      decreases listing, 0
    {
      ghost var src := Source(githubUrl, pat, publicRepo);
      ghost var start := State();
      written, error := {}, None;
      var i := 0;
      while i < |contents| && error.None?
        invariant 0 <= i <= |contents|
        invariant Progress(State(), error, written) == LevelEntries(start, src, root, subPath, listing, i, deferRemove)
      {
        var more, err := ProcessContent(githubUrl, subPath, pat, publicRepo, contents[i], deferRemove);
        written, error := written + more, err;
        i := i + 1;
      }
      if error.Some? {
        LevelEntriesStaysFailed(start, src, root, subPath, listing, i, |contents|, deferRemove);
      }
    }
  }
}
