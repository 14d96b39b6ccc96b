# ProtoPort core, modelled in Dafny

ProtoPort is a command-line tool that compiles Protocol Buffers definitions
with `protoc`. The definitions come from a local directory tree or from a
GitHub repository. This project models three parts of its core and proves
properties about them:

- **String helpers** (`utilities.dfy`, module `Utilities`):
  - the suffix test `CheckForFileExtension`;
  - the language check `CheckIfLangIsSupported`;
  - the list-based set operations `Difference`, `Intersection`, `Union`,
    `SymmetricDifference` and `RelativeComplement`;
  - the searches `StringInSlice` and `Contains`.

  `Select(a, b, inB)` keeps the elements of `a`, in order and with their
  repetitions, whose membership in `b` equals `inB`. `Difference` and
  `Intersection` are loop methods proved equal to `Select(a, b, false)` and
  `Select(a, b, true)`. The searches and the language checks are loop
  methods proved against sequence membership (`CheckIfLangIsSupported`
  against `lang == "go"`). `Union`, `SymmetricDifference` and
  `RelativeComplement` are functions over `Select`. `CheckForFileExtension`
  is a single suffix comparison. The comment of `RelativeComplement`
  (internal/utilities/helper.go:90) calls the result the relative complement
  of `a` in `b`, i.e. the elements of `b` outside `a`; the code computes the
  elements of `a` outside `b`, and the model follows the code.
- **Proto build dispatcher** (`protoc.dfy`, module `Protoc`):
  - `ProtocArgs` is the language switch of `BuildProto`. It gives the exact
    `protoc` argument vector, or the error returned before any run.
  - `Build` is one `BuildProto` call. `protoc` is an oracle (a `Compiler`)
    from argument vector to exit code and standard output.
  - The class `Workspace` holds three things: the output directories, the
    argument vectors issued, and the files announced with "Build successfull".
    Its methods `BuildProto` and `ReadDirForProto` are proved equal to the
    spec functions `Build` and `WalkListing`.
  - The input tree is a `Listing` value: for every directory, its entries or
    `Unreadable`.
- **GitHub tree materializer** (`github.dfy`, module `Github`):
  - The contents URL and the request headers.
  - The child subpath.
  - `generateFolderStructure`, as a fold `Folders` over the pieces of the
    subpath.
  - The recursive walk `GithubReadAndGenrateProtos`.

  The remote repository is a `Listing` tree. Each entry carries the answer
  its follow-up request gets: a file's bytes, or a subdirectory's listing.
  The scratch area is the class `Scratch`, which holds:
  - directories;
  - files, as a map from path to bytes;
  - the paths created, in order;
  - the HTTP requests logged.

  The snapshot of its fields is the `Area` value that the spec function
  `Level` works on.
- `paths.dfy` (module `Paths`) has the path helpers:
  - `Join` is `filepath.Join` for two components: empty parts are skipped,
    and there is no `.`/`..` clean-up.
  - `JoinAll` is `Join` over a list.
  - `Split` is `strings.Split` on `/`.

  `wrappers.dfy` holds `Option`.

Only an error of the directory being processed stops its loop: both walks
drop the outcome of every recursive call (internal/protoc/build.go:36,
internal/github/api.go:86-88). `WalkEntriesWithoutProtoSucceeds` and
`LevelEntriesWithoutProtoFiles` state this.

Semantic choices:
- `os.Mkdir` and `os.Create` succeed only inside an existing directory.
- Nothing in the core creates the scratch root `TempDir/ProtoPort`. The
  lemmas that need it take `root in dirs` as a hypothesis.
- `ReadDirForProto` never reads its `github` parameter. Its contract does not
  mention that parameter, so the result does not depend on it.
- A directory whose name ends in ".proto" is both walked and built, because
  the two tests in the loop are independent. `Visit` and `PlannedEntry` do
  both.

## Model

| member | source | states |
|---|---|---|
| Utilities.CheckForFileExtension | internal/utilities/helper.go:9-11 | true exactly when the extension is a suffix of the name (the name is its own prefix followed by the extension); the empty extension is always accepted |
| Utilities.ExtensionOfConcatenation | internal/utilities/helper.go:9-11 | any stem followed by the extension passes the test |
| Utilities.CheckIfLangIsSupported | internal/utilities/helper.go:32-39 | as written, the loop returns on its first iteration, so the result is true exactly for the first listed language, "go" |
| Utilities.CheckIfLangIsSupportedOnCpp | internal/utilities/helper.go:32-39 | "cpp" is in the language list, yet the check rejects it |
| Utilities.IsLangSupported | internal/utilities/helper.go:32-39 | the intended check: true exactly when the language is in the list |
| Utilities.StringInSlice | internal/utilities/helper.go:56-63 | true exactly when the string occurs in the list |
| Utilities.Contains | internal/utilities/helper.go:96-103 | true exactly when the string occurs in the list |
| Utilities.SearchesAgree | internal/utilities/helper.go:56-63 | `StringInSlice(x, a)` and `Contains(a, x)` always give the same answer |
| Utilities.SelectMembership | internal/utilities/helper.go:42-54 | an element is in the filtered list exactly when it is in `a` and its membership in `b` is the one selected |
| Utilities.SelectCount | internal/utilities/helper.go:42-54 | a kept element keeps every occurrence it has in `a`; a dropped one has none (multiset count) |
| Utilities.SelectConcat | internal/utilities/helper.go:42-54 | filtering distributes over concatenation, so relative order is kept |
| Utilities.SelectPartition | internal/utilities/helper.go:66-78 | the lengths of the intersection and the difference add up to the length of `a` |
| Utilities.SelectCongruent | internal/utilities/helper.go:91-93 | filtering sees `b` only through the membership of `a`'s elements |
| Utilities.Difference | internal/utilities/helper.go:42-54 | the result is exactly the elements of `a` not in `b`, in order with repetitions (`Select(a, b, false)`) |
| Utilities.Intersection | internal/utilities/helper.go:66-78 | the result is exactly the elements of `a` that are in `b`, in order with repetitions (`Select(a, b, true)`) |
| Utilities.Union | internal/utilities/helper.go:81-83 | `a` is a prefix of the result; an element is in the result exactly when it is in `a` or in `b` |
| Utilities.SymmetricDifference | internal/utilities/helper.go:86-88 | an element is in the result exactly when it is in one of the lists and not the other |
| Utilities.RelativeComplement | internal/utilities/helper.go:91-93 | the result equals the difference of `a` and `b`, element for element |
| Paths.Join | internal/github/api.go:120-122 | no contract of its own; `filepath.Join` of two parts, skipping an empty one; its properties are `JoinExtends` and `JoinMonotone` |
| Paths.JoinAll | internal/github/api.go:150 | no contract of its own; `filepath.Join(parts...)` from the left; its property is `ChildSubPathResolves` |
| Paths.Split | internal/github/api.go:147 | splitting always gives at least one piece |
| Paths.SplitComponent | internal/github/api.go:147 | a name without "/" splits into itself |
| Paths.SplitAppend | internal/github/api.go:147 | appending "/name" appends exactly one piece |
| Paths.JoinExtends | internal/github/api.go:150 | the left operand of a join is a prefix of the result |
| Paths.JoinMonotone | internal/github/api.go:150 | joining one base onto a prefix gives a prefix |
| Protoc.ProtocArgs | internal/protoc/build.go:52-89 | the empty language gives "language not specified"; a vector is produced exactly for the twelve listed languages; any other language gives "language not supported"; every vector ends with `--proto_path=P` and `Join(P, F)` |
| Protoc.OutputFlags | internal/protoc/build.go:61-89 | no contract of its own; the output flags of the language switch, none for an unlisted language; its properties are `GoArgs`, `OtherLanguageFlags` and `ProtocArgs` |
| Protoc.GoArgs | internal/protoc/build.go:55-63 | the exact six-element vector for "go", in order |
| Protoc.OtherLanguageFlags | internal/protoc/build.go:64-85 | every other listed language L has the single flag `--L_out=O` |
| Protoc.OtherLanguageArgs | internal/protoc/build.go:55-85 | the exact three-element vector `--L_out=O, --proto_path=P, Join(P, F)` for every other listed language |
| Protoc.Build | internal/protoc/build.go:52-106 | no directory changes; success exactly when a vector exists and `protoc` exits 0 on it; failure carries the rejection or "error building proto file"; one run is issued exactly when a vector exists; at most the file name is announced, and only on success |
| Protoc.BuildAnnounces | internal/protoc/build.go:95-105 | the success message is printed exactly when the run exits 0 and writes nothing to standard output |
| Protoc.BuildErrorMessage | internal/protoc/build.go:57-98 | a failed build carries "language not specified" for the empty language, "language not supported" for an unlisted one, and "error building proto file" for a listed language whose `protoc` run fails |
| Protoc.BuildIgnoresStdout | internal/protoc/build.go:95-105 | the status and the runs issued depend only on exit codes, not on standard output |
| Protoc.MakeDir | internal/protoc/build.go:30-34 | only the mirrored directory can be added; it is present afterwards when its parent exists; existing directories stay |
| Protoc.WalkListing | internal/protoc/build.go:15-50 | no contract of its own; `ReadDirForProto` as written: an unreadable directory is the error, otherwise its loop; its properties are `WalkListingClean`, `WalkListingRejectedLanguage` and `Workspace.ReadDirForProto` |
| Protoc.WalkEntries | internal/protoc/build.go:28-47 | no contract of its own; the loop over the first n entries, ended by a failing build; its properties are `WalkEntriesStaysFailed`, `WalkEntriesStopsAtFailedBuild`, `WalkEntriesWithoutProtoSucceeds` and `WalkEntriesClean` |
| Protoc.Visit | internal/protoc/build.go:29-46 | no contract of its own; one iteration: a directory is mirrored and walked with its status dropped, then a ".proto" name is built; its properties are `VisitClean` and `VisitRejectedLanguage` |
| Protoc.WalkListingRejectedLanguage | internal/protoc/build.go:15-50 | with an empty or unlisted language no `protoc` run is issued and nothing is announced anywhere in the tree |
| Protoc.WalkEntriesRejectedLanguage | internal/protoc/build.go:28-47 | the same for a prefix of one directory's loop |
| Protoc.VisitRejectedLanguage | internal/protoc/build.go:29-46 | the same for a single entry |
| Protoc.WalkEntriesWithoutProtoSucceeds | internal/protoc/build.go:28-49 | without ".proto" entries in the directory the loop succeeds for every language, even "", whatever fails in subdirectories |
| Protoc.WalkEntriesStaysFailed | internal/protoc/build.go:39-46 | once the loop has failed, later entries change nothing |
| Protoc.WalkEntriesStopsAtFailedBuild | internal/protoc/build.go:39-46 | a failing build of entry k ends the loop there with that failure; entries after k are never looked at |
| Protoc.WalkListingClean | internal/protoc/build.go:15-50 | for a listed language, an existing output directory and a `protoc` that never fails: the status is success exactly when the directory is readable; the directories afterwards are the old ones plus every mirrored subdirectory; the runs are exactly one per ".proto" entry, in walk order |
| Protoc.WalkEntriesClean | internal/protoc/build.go:28-47 | the same for a prefix of the loop, under the same three hypotheses (listed language, existing output directory, `protoc` never fails); the prefix always succeeds |
| Protoc.VisitClean | internal/protoc/build.go:29-46 | the same for one entry, under the same three hypotheses: it succeeds; a directory is mirrored and walked, then a ".proto" name is built |
| Protoc.WalkEntriesCleanStep | internal/protoc/build.go:29-46 | one more entry after a clean prefix keeps the loop clean: its mirrored directories and its runs are appended to those of the prefix |
| Protoc.BuildClean | internal/protoc/build.go:52-99 | with a listed language and a `protoc` that never fails, the build has an argument vector, succeeds, leaves the directories alone and issues exactly that one run |
| Protoc.Workspace.BuildProto | internal/protoc/build.go:52-106 | the new state and the status are those of `Build` on the old state |
| Protoc.Workspace.ReadDirForProto | internal/protoc/build.go:15-50 | the new state and the status are those of `WalkListing` on the old state; the `github` flag plays no part |
| Github.ReplaceFirst | internal/github/api.go:25-27 | no contract of its own; `strings.Replace(s, pat, repl, 1)`; its properties are `ReplaceFirstOccurrence` and `ReplaceFirstAbsent` |
| Github.ContentsUrl | internal/github/api.go:24-28 | no contract of its own; the contents endpoint; its properties are `ContentsUrlRewritesFirstPrefix` and `ContentsUrlOfRepository` |
| Github.ReplaceFirstOccurrence | internal/github/api.go:25-27 | when the pattern does not occur before position \|p\|, the occurrence at \|p\| is the one replaced and the text around it is kept |
| Github.ReplaceFirstAbsent | internal/github/api.go:25-27 | without any occurrence of the pattern the text is unchanged |
| Github.ContentsUrlRewritesFirstPrefix | internal/github/api.go:24-28 | the contents URL replaces the first "https://github.com/" with "https://api.github.com/repos/", then appends "/contents", and "/subpath" when the subpath is not empty |
| Github.ContentsUrlOfRepository | internal/github/api.go:24-28 | for `https://github.com/owner/repo` the URL is `https://api.github.com/repos/owner/repo/contents[/subpath]` |
| Github.ListingRequest | internal/github/api.go:24-40 | the listing request goes to the contents URL and always accepts "application/vnd.github+json"; it carries "Bearer pat" as Authorization exactly when the repository is not public; it has no other headers |
| Github.FileRequest | internal/github/api.go:92-100 | the file request goes to the entry's URL, accepts the raw type and always carries the bearer token |
| Github.ChildSubPath | internal/github/api.go:84-89 | no contract of its own; `subPath + "/" + name`, or just the name at the top; its properties are `ChildSubPathSplits` and `ChildSubPathResolves` |
| Github.ChildSubPathSplits | internal/github/api.go:84-89 | a child subpath splits into the parent's pieces followed by the child's name (just the name at the top) |
| Github.ChildSubPathResolves | internal/github/api.go:84-89 | a child subpath, split and joined again, gives itself back |
| Github.Folder | internal/github/api.go:150 | no contract of its own; the i-th prefix folder below the scratch root; its properties are `FolderPrefix` and `FolderBetween` |
| Github.Folders | internal/github/api.go:149-155 | no contract of its own; the loop after n pieces, making each absent folder whose parent exists; its properties are `FoldersBounds`, `FoldersReach`, `FoldersClosed` and `FoldersStable` |
| Github.FolderStructure | internal/github/api.go:146-156 | no contract of its own; `generateFolderStructure` over all pieces of the subpath; its properties are `FolderStructureIdempotent`, `FolderStructureMakesSubPath` and `Scratch.GenerateFolderStructure` |
| Github.FoldersBounds | internal/github/api.go:146-156 | making the folders never removes a directory and adds only prefix folders of the subpath |
| Github.FoldersReach | internal/github/api.go:149-155 | when the scratch root exists, every prefix folder, shortest first, exists afterwards |
| Github.FolderPrefix | internal/github/api.go:150 | a shorter prefix folder is a prefix of a longer one |
| Github.FolderBetween | internal/github/api.go:150 | two equal prefix folders have only that folder between them |
| Github.FoldersClosed | internal/github/api.go:149-155 | afterwards, every prefix folder whose parent exists exists too |
| Github.FoldersStable | internal/github/api.go:149-155 | running the loop again over a finished folder structure changes nothing |
| Github.FolderStructureIdempotent | internal/github/api.go:146-156 | making the folder structure twice leaves the same directories as making it once |
| Github.FolderStructureMakesSubPath | internal/github/api.go:118-125 | from an existing scratch root, the folder `root/subPath` of a resolving subpath exists afterwards, so the file can be created |
| Github.IsProtoFile | internal/github/api.go:90 | no contract of its own; a file-typed entry whose name ends in ".proto"; used by `WriteFile`, `VisitContent` and `ExampleEntries` |
| Github.FileDir | internal/github/api.go:118-123 | no contract of its own; the directory that must hold a downloaded file; its property is `FolderStructureMakesSubPath` |
| Github.FilePath | internal/github/api.go:118-123 | no contract of its own; `root/subPath/name`, or `root/name` at the top; used by `WriteFile`, `WriteFileClean` and `KeptLevelWritesProtoFiles` |
| Github.WriteFile | internal/github/api.go:90-139 | the file request is always logged; a failed fetch and a missing directory are the two errors; on success exactly one file is written, at `root/subPath/name` or `root/name`, and recorded as created |
| Github.WriteFileClean | internal/github/api.go:118-134 | from an existing root, with a resolving subpath and a successful download, the write succeeds and adds exactly the file `root/subPath/name` with the downloaded bytes |
| Github.Level | internal/github/api.go:65-144 | a failed listing is the error; success always returns the scratch root, whatever the subpath; directories and the creation record only grow |
| Github.LevelEntries | internal/github/api.go:83-141 | directories and the creation record only grow during the loop |
| Github.VisitContent | internal/github/api.go:83-140 | directories and the creation record only grow in one iteration |
| Github.LevelEntriesStaysFailed | internal/github/api.go:92-139 | an error at this level ends its loop; later entries change nothing |
| Github.LevelEntriesWithoutProtoFiles | internal/github/api.go:83-89 | a level without proto files of its own succeeds whatever fails below, because recursive errors are dropped |
| Github.FirstEntryWrites | internal/github/api.go:90-139 | a loop whose first entry is a proto file starts by writing that file |
| Github.FileEntry | internal/github/api.go:90-139 | after a clean prefix, a file-typed ".proto" entry continues the loop with the outcome of writing it, and its written path joins the deferred set |
| Github.SkippedEntry | internal/github/api.go:83-90 | an entry that is neither a "dir" nor a file-typed ".proto" changes nothing |
| Github.DirEntry | internal/github/api.go:84-89 | a "dir" entry passes the current area to the walk of the child subpath and drops its outcome |
| Github.ExampleEntries | internal/github/api.go:84-90 | in the example tree, `a.proto` and `b.proto` are proto files, `readme.md` is not, and "sub" is a "dir" whose name is a resolving subpath |
| Github.ExampleFetchable | internal/github/api.go:84-139 | every download of the example tree succeeds and its "dir" has a proper name |
| Github.LevelSameTrace | internal/github/api.go:65-144 | the walk makes the same requests, directories, created paths and outcome with or without the deferred removals, so the removals leave the directories in place |
| Github.LevelEntriesSameTrace | internal/github/api.go:83-141 | the same for a prefix of one level's loop |
| Github.VisitContentSameTrace | internal/github/api.go:83-140 | the same for one entry |
| Github.RemovalInvariant | internal/github/api.go:119-132 | no contract of its own; the four facts about created, deferred and old files that `LevelEntriesOnlyOwnWrites` and `VisitContentOnlyOwnWrites` prove for the deferred-removal walk |
| Github.WrittenFilesDoNotSurvive | internal/github/api.go:119-132 | as written, the call adds no file and changes none; every path it created, an old file it overwrote included, is gone afterwards; every old file it did not create stays with its contents |
| Github.LevelEntriesOnlyOwnWrites | internal/github/api.go:83-141 | the loop of a level keeps `RemovalInvariant`: each deferred path was created by the loop, each created path is deferred or gone, an old file not created is untouched, and each file not deferred is an untouched old file |
| Github.VisitContentOnlyOwnWrites | internal/github/api.go:84-139 | one iteration keeps `RemovalInvariant`: a walked subdirectory removes everything it created, a written proto file is created and deferred |
| Github.KeptLevelWritesProtoFiles | internal/github/api.go:65-144 | with the files kept, over a tree where every download succeeds and from an existing root: the call succeeds exactly when the listing is answered, leaving the old files plus exactly the file-typed ".proto" entries at their mirrored paths |
| Github.KeptEntriesWriteProtoFiles | internal/github/api.go:83-141 | the same for a prefix of one level's loop |
| Github.KeptContentWritesProtoFile | internal/github/api.go:84-139 | the same for one entry |
| Github.ExampleSubLevel | internal/github/api.go:83-143 | for the example "sub" level, the walk succeeds, creates `sub/b.proto` and passes over `readme.md` |
| Github.ExampleTopLevel | internal/github/api.go:83-141 | for the example tree's top level, `a.proto` then `sub/b.proto` are created |
| Github.ExampleTreeAsWritten | internal/github/api.go:65-144 | as written, the example tree ends in success with both proto files created, and no file remains |
| Github.ExampleOverwriteRemoved | internal/github/api.go:118-132 | as written, an old file at `root/a.proto` is overwritten by the download and removed with it, while any other old file stays with its contents |
| Github.ExampleSubFiles | internal/github/api.go:118-120 | the proto files of the example "sub" level are just `sub/b.proto` below the root |
| Github.ExampleProtoFiles | internal/github/api.go:118-123 | the proto files of the example tree are `a.proto` and `sub/b.proto` below the root |
| Github.ExampleTreeKept | internal/github/api.go:65-144 | with the files kept, the example tree leaves exactly `root/a.proto` and `root/sub/b.proto` with their bytes |
| Github.Scratch.GithubGetContent | internal/github/api.go:21-63 | exactly one listing request is logged, and nothing else changes; the entries come back exactly when the listing is answered |
| Github.Scratch.GenerateFolderStructure | internal/github/api.go:146-156 | the directories afterwards are `FolderStructure` of the old ones; nothing else changes |
| Github.Scratch.FetchAndWrite | internal/github/api.go:90-139 | the new state, the error and the written path are those of `WriteFile` |
| Github.Scratch.ProcessContent | internal/github/api.go:84-140 | the new state, the error and the deferred path of one loop iteration are those of `VisitContent` |
| Github.Scratch.ProcessEntries | internal/github/api.go:83-141 | the new state, the error and the deferred paths of the loop are those of `LevelEntries` over all entries |
| Github.Scratch.RunDeferredRemovals | internal/github/api.go:132 | the deferred paths are removed from the files and nothing else changes |
| Github.Scratch.GithubReadAndGenrateProtos | internal/github/api.go:65-144 | the new state and the outcome are those of `Level` with the deferred removals |
| Github.Scratch.GithubReadAndGenerateProtosKeepingFiles | internal/github/api.go:65-144 | the new state and the outcome are those of `Level` without the removals |

## Left out

- `DeleteAll` (internal/utilities/helper.go:13-30) is a loop over `os.RemoveAll` of the directory's entries. No other file system operation of the model needs it.
- The HTTP requests, `io.ReadAll` and `json.Unmarshal` are oracles. A `Listing` answers a listing request: its entries, or `ListingFailed` for a failed request, read or decode. A `Fetch` answers a file request: the bytes, or `FetchFailed`. The model logs each request as a URL and a header map. A request is logged even when `http.NewRequest` rejects its URL (internal/github/api.go:30-34, 92-97), although nothing is then sent; that rejection path is not modelled. The `log.Println` calls of internal/github/api.go are not modelled either.
- Of the contents record (internal/github/types/types.go) only `Type`, `Name` and `URL` are kept. The remaining fields are never read by the core.
- The `protoc` subprocess is the oracle `Compiler`, which gives an exit code and standard output for an argument vector. Standard error and the log lines are not modelled. The success message is the `announced` log.
- `filepath.Join` is modelled without its lexical clean-up of `.`, `..` and repeated separators. `os.TempDir` is an abstract parameter of the `Scratch` constructor.
- `file.Write` is taken to succeed. Only creating the file can fail in the model, so the write-error path of internal/github/api.go:134-139 does not occur in the model.
- Errors of `os.Stat` other than "does not exist", and failures of `os.Mkdir` beyond a missing parent, are not modelled. The code ignores both.
- `os.Create` on a path that is an existing directory is not modelled.
- The open directory and file handles that are never closed (internal/protoc/build.go:16, internal/github/api.go:125) are not modelled. On POSIX file systems they have no functional effect. On Windows, `os.Remove` of the still-open file from internal/github/api.go:125 fails, the error is ignored, and the file survives; the model follows the POSIX behaviour.
- Go slices are modelled as values, so `append` reusing the backing array of `a` in `Union` and `SymmetricDifference` is not modelled.
- The local input tree of `ReadDirForProto` is a fixed `Listing` value, taken to be disjoint from the output tree. The code lists each directory only when the walk reaches it (internal/protoc/build.go:16-22, 36). When the output directory lies inside the input directory, a directory the walk creates at line 33 is found by a later listing, and the walk keeps nesting (`gen/gen/gen…`) until a path is too long; line 36 drops that final error. The model does not capture this.
- Go strings are byte strings; the model's `string` is a sequence of characters. The suffix test, `Split` and `Join` give the same answers on valid UTF-8, but file names that are not valid UTF-8 cannot be represented.
- `cmd/proto-port/main.go` (flag parsing, path resolution, subcommands) is not part of this model.
- Utilities.Union: states the prefix and membership, not that the tail is exactly `Difference(b, a)`. The tail is that by definition.

## Findings

| source | as written | input that shows it | evidently intended | confidence | as-written member | corrected member |
|---|---|---|---|---|---|---|
| internal/utilities/helper.go:35-37 | the loop body returns the comparison with the first list element, so only "go" is accepted | `CheckIfLangIsSupported("cpp")` is false although "cpp" is listed | true exactly for the listed languages | high, not executed | Utilities.CheckIfLangIsSupported, Utilities.CheckIfLangIsSupportedOnCpp | Utilities.IsLangSupported |
| internal/github/api.go:132 | `defer os.Remove` removes every file a call wrote when that call returns, so `GithubReadAndGenrateProtos` hands back a scratch directory with no downloaded file in it | the tree a.proto, sub/b.proto, sub/readme.md from an existing empty scratch root: success, both files created, none left | the downloaded ".proto" files stay until the caller has built them | medium (certain on POSIX file systems; on Windows the open file is not removed), not executed | Github.Scratch.GithubReadAndGenrateProtos, Github.WrittenFilesDoNotSurvive, Github.ExampleTreeAsWritten | Github.Scratch.GithubReadAndGenerateProtosKeepingFiles, Github.KeptLevelWritesProtoFiles, Github.ExampleTreeKept |
