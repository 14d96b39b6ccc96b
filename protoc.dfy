/**
 * The proto build dispatcher: `BuildProto` turns a language name into the
 * argument vector of one `protoc` run, and `ReadDirForProto` walks an input
 * directory tree, mirrors its directories under the output directory and
 * builds every entry whose name ends in ".proto".
 *
 * The input tree is a value (`Listing`): what `Readdir` returns for a
 * directory, or `Unreadable` when opening or reading it fails. The output
 * side of the file system and the `protoc` runs live in a `Workspace`
 * object. `protoc` itself is an oracle from argument vector to exit code
 * and standard output.
 */
module Protoc {
  import opened Wrappers
  import opened Paths
  import Utilities

  const ProtoExtension := ".proto"

  datatype Error = OpenFailed(path: string) | LanguageNotSpecified | LanguageNotSupported | BuildFailed
  {
    /** The text of the errors the build step creates itself. */
    function Message(): string
      requires !OpenFailed?
    {
      match this
      case LanguageNotSpecified => "language not specified"
      case LanguageNotSupported => "language not supported"
      case BuildFailed => "error building proto file"
    }
  }

  datatype Status = Done | Failed(error: Error)

  /** What one `protoc` run reports: its exit code and what it wrote to stdout. */
  datatype Run = Run(exitCode: int, stdout: string)

  type Compiler = seq<string> -> Run

  /** A directory entry: a file, or a directory together with its own listing. */
  datatype Entry = File(name: string) | Directory(name: string, listing: Listing)

  /** The result of opening and reading one directory. */
  datatype Listing = Unreadable | Listed(entries: seq<Entry>)

  /** The observable state: output directories, issued runs, success messages. */
  datatype Fs = Fs(dirs: set<string>, invocations: seq<seq<string>>, announced: seq<string>)

  // ---------------------------------------------------------------------
  // Argument selection

  /** `--L_out=O`, the output flag of language L. */
  function OutFlag(lang: string, output: string): string
  {
    "--" + lang + "_out=" + output
  }

  /** The language-specific output flags, one switch arm per language. */
  function OutputFlags(lang: string, output: string): Option<seq<string>>
  {
    match lang
    case "go" => Some(["--go_out=" + output, "--go_opt=paths=source_relative",
                       "--go-grpc_out=" + output, "--go-grpc_opt=paths=source_relative"])
    case "cpp" => Some([OutFlag("cpp", output)])
    case "csharp" => Some([OutFlag("csharp", output)])
    case "java" => Some([OutFlag("java", output)])
    case "python" => Some([OutFlag("python", output)])
    case "ruby" => Some([OutFlag("ruby", output)])
    case "pyi" => Some([OutFlag("pyi", output)])
    case "php" => Some([OutFlag("php", output)])
    case "objc" => Some([OutFlag("objc", output)])
    case "kotlin" => Some([OutFlag("kotlin", output)])
    case "node" => Some([OutFlag("node", output)])
    case "dart" => Some([OutFlag("dart", output)])
    case _ => None
  }

  datatype Args = Args(argv: seq<string>) | Rejected(error: Error)

  /** The argument vector `BuildProto` runs `protoc` with, or the error it returns first. */
  function ProtocArgs(protoPath: string, output: string, protoFile: string, lang: string): (r: Args)
    ensures lang == "" ==> r == Rejected(LanguageNotSpecified)
    ensures r.Args? <==> lang in Utilities.SupportedLanguages
    ensures r.Rejected? && lang != "" ==> r.error == LanguageNotSupported
    ensures r.Args? ==>
      (|r.argv| >= 3 && r.argv[|r.argv| - 2..] == ["--proto_path=" + protoPath, Join(protoPath, protoFile)])
  {
    var fullProtoFilePath := Join(protoPath, protoFile);
    if lang == "" then Rejected(LanguageNotSpecified)
    else match OutputFlags(lang, output)
      case None => Rejected(LanguageNotSupported)
      case Some(flags) => Args(flags + ["--proto_path=" + protoPath, fullProtoFilePath])
  }

  /** For "go": two generators, each with its source-relative option. */
  lemma GoArgs(protoPath: string, output: string, protoFile: string)
    ensures ProtocArgs(protoPath, output, protoFile, "go") ==
      Args(["--go_out=" + output, "--go_opt=paths=source_relative",
            "--go-grpc_out=" + output, "--go-grpc_opt=paths=source_relative",
            "--proto_path=" + protoPath, Join(protoPath, protoFile)])
  {
  }

  /** Every supported language other than "go" gets the single flag `--L_out=O`. */
  lemma OtherLanguageFlags(lang: string, output: string)
    requires lang in Utilities.SupportedLanguages && lang != "go"
    ensures OutputFlags(lang, output) == Some([OutFlag(lang, output)])
  {
  }

  /** For every other supported language L: `--L_out=O` and nothing else before the path flags. */
  lemma OtherLanguageArgs(protoPath: string, output: string, protoFile: string, lang: string)
    requires lang in Utilities.SupportedLanguages && lang != "go"
    ensures ProtocArgs(protoPath, output, protoFile, lang) ==
      Args(["--" + lang + "_out=" + output, "--proto_path=" + protoPath, Join(protoPath, protoFile)])
  {
    OtherLanguageFlags(lang, output);
  }

  // ---------------------------------------------------------------------
  // One build

  /** The effect of `BuildProto`: at most one run, its status, the success message. */
  function Build(fs: Fs, protoc: Compiler, protoPath: string, output: string, protoFile: string, lang: string): (r: (Fs, Status))
    ensures r.0.dirs == fs.dirs
    ensures r.1 == Done <==>
      ProtocArgs(protoPath, output, protoFile, lang).Args? &&
      protoc(ProtocArgs(protoPath, output, protoFile, lang).argv).exitCode == 0
    ensures r.1.Failed? ==>
      r.1.error == match ProtocArgs(protoPath, output, protoFile, lang)
                   case Rejected(e) => e
                   case Args(_) => BuildFailed
    ensures r.0.invocations == fs.invocations +
      match ProtocArgs(protoPath, output, protoFile, lang)
      case Rejected(_) => []
      case Args(argv) => [argv]
    ensures r.0.announced == fs.announced ||
      (r.1 == Done && r.0.announced == fs.announced + [protoFile])
  {
    match ProtocArgs(protoPath, output, protoFile, lang)
    case Rejected(e) => (fs, Failed(e))
    case Args(argv) =>
      var run := protoc(argv);
      var fs' := fs.(invocations := fs.invocations + [argv]);
      if run.exitCode != 0 then (fs', Failed(BuildFailed))
      else if run.stdout == "" then (fs'.(announced := fs.announced + [protoFile]), Done)
      else (fs', Done)
  }

  /** Standard output decides only whether the success message is printed. */
  lemma BuildIgnoresStdout(fs: Fs, p1: Compiler, p2: Compiler, protoPath: string, output: string, protoFile: string, lang: string)
    requires forall argv :: p1(argv).exitCode == p2(argv).exitCode
    ensures Build(fs, p1, protoPath, output, protoFile, lang).1 == Build(fs, p2, protoPath, output, protoFile, lang).1
    ensures Build(fs, p1, protoPath, output, protoFile, lang).0.invocations ==
            Build(fs, p2, protoPath, output, protoFile, lang).0.invocations
  {
  }

  /** "Build successfull" is printed exactly for a successful run that wrote nothing to stdout. */
  lemma BuildAnnounces(fs: Fs, protoc: Compiler, protoPath: string, output: string, protoFile: string, lang: string)
    ensures var r := Build(fs, protoc, protoPath, output, protoFile, lang);
      var a := ProtocArgs(protoPath, output, protoFile, lang);
      r.0.announced == fs.announced + (if a.Args? && protoc(a.argv) == Run(0, "") then [protoFile] else [])
  {
  }

  /**
   * The text of a failed build: "language not specified" for the empty
   * language, "language not supported" for an unlisted one, and "error
   * building proto file" when `protoc` itself fails.
   */
  lemma BuildErrorMessage(fs: Fs, protoc: Compiler, protoPath: string, output: string, protoFile: string, lang: string)
    requires Build(fs, protoc, protoPath, output, protoFile, lang).1.Failed?
    ensures var e := Build(fs, protoc, protoPath, output, protoFile, lang).1.error;
      !e.OpenFailed? &&
      e.Message() == (if lang == "" then "language not specified"
                      else if lang in Utilities.SupportedLanguages then "error building proto file"
                      else "language not supported")
  {
  }

  /** A build that succeeds, whatever state it starts from. */
  predicate BuildSucceeds(protoc: Compiler, protoPath: string, output: string, protoFile: string, lang: string)
  {
    var a := ProtocArgs(protoPath, output, protoFile, lang);
    a.Args? && protoc(a.argv).exitCode == 0
  }

  /** `os.Stat` then `os.Mkdir`: an absent directory is created when its parent exists. */
  function MakeDir(fs: Fs, parent: string, dir: string): (r: Fs)
    ensures fs.dirs <= r.dirs <= fs.dirs + {dir}
    ensures parent in fs.dirs ==> dir in r.dirs
    ensures r.invocations == fs.invocations && r.announced == fs.announced
  {
    if dir !in fs.dirs && parent in fs.dirs then fs.(dirs := fs.dirs + {dir}) else fs
  }

  // ---------------------------------------------------------------------
  // The walk

  /** `ReadDirForProto(path, output, lang, _)` on a directory whose listing is `listing`. */
  function WalkListing(fs: Fs, protoc: Compiler, path: string, output: string, listing: Listing, lang: string): (Fs, Status)
    decreases listing, if listing.Listed? then |listing.entries| + 1 else 0
  {
    match listing
    case Unreadable => (fs, Failed(OpenFailed(path)))
    case Listed(entries) => WalkEntries(fs, protoc, path, output, listing, |entries|, lang)
  }

  /** The loop over the first `n` entries; the first failing build stops it. */
  function WalkEntries(fs: Fs, protoc: Compiler, path: string, output: string, listing: Listing, n: nat, lang: string): (Fs, Status)
    requires listing.Listed? && n <= |listing.entries|
    decreases listing, n
  {
    if n == 0 then (fs, Done)
    else
      var before := WalkEntries(fs, protoc, path, output, listing, n - 1, lang);
      if before.1.Failed? then before
      else Visit(before.0, protoc, path, output, listing.entries[n - 1], lang)
  }

  /**
   * One loop iteration: a directory is mirrored and walked (its status is
   * dropped), then a name ending in ".proto" is built, whatever its kind.
   */
  function Visit(fs: Fs, protoc: Compiler, path: string, output: string, entry: Entry, lang: string): (Fs, Status)
    decreases entry
  {
    var walked :=
      if entry.Directory? then
        var subdir := Join(output, entry.name);
        WalkListing(MakeDir(fs, output, subdir), protoc, Join(path, entry.name), subdir, entry.listing, lang).0
      else fs;
    if Utilities.CheckForFileExtension(entry.name, ProtoExtension) then
      Build(walked, protoc, path, output, entry.name, lang)
    else (walked, Done)
  }

  // ---------------------------------------------------------------------
  // What a walk does when nothing goes wrong

  /** The output directories a full walk mirrors, subtree by subtree. */
  function MirrorListing(output: string, listing: Listing): set<string>
    decreases listing, if listing.Listed? then |listing.entries| + 1 else 0
  {
    match listing
    case Unreadable => {}
    case Listed(entries) => MirrorEntries(output, listing, |entries|)
  }

  function MirrorEntries(output: string, listing: Listing, n: nat): set<string>
    requires listing.Listed? && n <= |listing.entries|
    decreases listing, n
  {
    if n == 0 then {}
    else MirrorEntries(output, listing, n - 1) + MirrorEntry(output, listing.entries[n - 1])
  }

  function MirrorEntry(output: string, entry: Entry): set<string>
    decreases entry
  {
    match entry
    case File(_) => {}
    case Directory(name, sub) => {Join(output, name)} + MirrorListing(Join(output, name), sub)
  }

  /** The argument vectors of a full walk, in the order the walk issues them. */
  function PlannedListing(path: string, output: string, listing: Listing, lang: string): seq<seq<string>>
    decreases listing, if listing.Listed? then |listing.entries| + 1 else 0
  {
    match listing
    case Unreadable => []
    case Listed(entries) => PlannedEntries(path, output, listing, |entries|, lang)
  }

  function PlannedEntries(path: string, output: string, listing: Listing, n: nat, lang: string): seq<seq<string>>
    requires listing.Listed? && n <= |listing.entries|
    decreases listing, n
  {
    if n == 0 then []
    else PlannedEntries(path, output, listing, n - 1, lang) + PlannedEntry(path, output, listing.entries[n - 1], lang)
  }

  function PlannedEntry(path: string, output: string, entry: Entry, lang: string): seq<seq<string>>
    decreases entry
  {
    (if entry.Directory? then
       PlannedListing(Join(path, entry.name), Join(output, entry.name), entry.listing, lang)
     else [])
    + (if Utilities.CheckForFileExtension(entry.name, ProtoExtension) then
         match ProtocArgs(path, output, entry.name, lang)
         case Args(argv) => [argv]
         case Rejected(_) => []
       else [])
  }

  /** `protoc` exits with status 0 on every argument vector. */
  ghost predicate NeverFails(protoc: Compiler)
  {
    forall argv :: protoc(argv).exitCode == 0
  }

  // ---------------------------------------------------------------------
  // Properties of the walk

  /**
   * With an unsupported or empty language no run is ever issued and no
   * message printed, however deep the tree; directories are still mirrored.
   */
  lemma {:induction false} WalkListingRejectedLanguage(fs: Fs, protoc: Compiler, path: string, output: string, listing: Listing, lang: string)
    requires lang !in Utilities.SupportedLanguages
    ensures WalkListing(fs, protoc, path, output, listing, lang).0.invocations == fs.invocations
    ensures WalkListing(fs, protoc, path, output, listing, lang).0.announced == fs.announced
    decreases listing, if listing.Listed? then |listing.entries| + 1 else 0
  {
    if listing.Listed? {
      WalkEntriesRejectedLanguage(fs, protoc, path, output, listing, |listing.entries|, lang);
    }
  }

  lemma {:induction false} WalkEntriesRejectedLanguage(fs: Fs, protoc: Compiler, path: string, output: string, listing: Listing, n: nat, lang: string)
    requires lang !in Utilities.SupportedLanguages
    requires listing.Listed? && n <= |listing.entries|
    ensures WalkEntries(fs, protoc, path, output, listing, n, lang).0.invocations == fs.invocations
    ensures WalkEntries(fs, protoc, path, output, listing, n, lang).0.announced == fs.announced
    decreases listing, n
  {
    if n > 0 {
      WalkEntriesRejectedLanguage(fs, protoc, path, output, listing, n - 1, lang);
      var before := WalkEntries(fs, protoc, path, output, listing, n - 1, lang);
      if before.1.Done? {
        VisitRejectedLanguage(before.0, protoc, path, output, listing.entries[n - 1], lang);
      }
    }
  }

  lemma {:induction false} VisitRejectedLanguage(fs: Fs, protoc: Compiler, path: string, output: string, entry: Entry, lang: string)
    requires lang !in Utilities.SupportedLanguages
    ensures Visit(fs, protoc, path, output, entry, lang).0.invocations == fs.invocations
    ensures Visit(fs, protoc, path, output, entry, lang).0.announced == fs.announced
    decreases entry
  {
    if entry.Directory? {
      var subdir := Join(output, entry.name);
      WalkListingRejectedLanguage(MakeDir(fs, output, subdir), protoc, Join(path, entry.name), subdir, entry.listing, lang);
    }
  }

  /**
   * Only the ".proto" entries of the directory itself decide its status:
   * with none of them the walk succeeds for every language, even "", and
   * whatever fails below.
   */
  lemma {:induction false} WalkEntriesWithoutProtoSucceeds(fs: Fs, protoc: Compiler, path: string, output: string, listing: Listing, n: nat, lang: string)
    requires listing.Listed? && n <= |listing.entries|
    requires forall i :: 0 <= i < n ==> !Utilities.CheckForFileExtension(listing.entries[i].name, ProtoExtension)
    ensures WalkEntries(fs, protoc, path, output, listing, n, lang).1 == Done
    decreases n
  {
    if n > 0 {
      WalkEntriesWithoutProtoSucceeds(fs, protoc, path, output, listing, n - 1, lang);
    }
  }

  /** A failed prefix of the loop is the whole loop: later entries change nothing. */
  lemma {:induction false} WalkEntriesStaysFailed(fs: Fs, protoc: Compiler, path: string, output: string, listing: Listing, k: nat, n: nat, lang: string)
    requires listing.Listed? && k <= n <= |listing.entries|
    requires WalkEntries(fs, protoc, path, output, listing, k, lang).1.Failed?
    ensures WalkEntries(fs, protoc, path, output, listing, n, lang) == WalkEntries(fs, protoc, path, output, listing, k, lang)
    decreases n
  {
    if n > k {
      WalkEntriesStaysFailed(fs, protoc, path, output, listing, k, n - 1, lang);
      var prev := WalkEntries(fs, protoc, path, output, listing, n - 1, lang);
      assert prev.1.Failed?;
      assert WalkEntries(fs, protoc, path, output, listing, n, lang) == prev;
    }
  }

  /** Once a ".proto" build of this directory fails, the later entries are never looked at. */
  lemma {:induction false} WalkEntriesStopsAtFailedBuild(fs: Fs, protoc: Compiler, path: string, output: string, listing: Listing, k: nat, n: nat, lang: string)
    requires listing.Listed? && k < n <= |listing.entries|
    requires Utilities.CheckForFileExtension(listing.entries[k].name, ProtoExtension)
    requires !BuildSucceeds(protoc, path, output, listing.entries[k].name, lang)
    ensures WalkEntries(fs, protoc, path, output, listing, n, lang) == WalkEntries(fs, protoc, path, output, listing, k + 1, lang)
    ensures WalkEntries(fs, protoc, path, output, listing, n, lang).1.Failed?
  {
    WalkEntriesStaysFailed(fs, protoc, path, output, listing, k + 1, n, lang);
  }

  /**
   * When every run succeeds the walk mirrors every directory of the tree
   * and issues exactly one run per ".proto" entry, in walk order. It
   * succeeds exactly when the top directory can be read.
   */
  lemma {:induction false} WalkListingClean(fs: Fs, protoc: Compiler, path: string, output: string, listing: Listing, lang: string)
    requires NeverFails(protoc) && lang in Utilities.SupportedLanguages
    requires output in fs.dirs
    ensures WalkListing(fs, protoc, path, output, listing, lang).1 == (if listing.Listed? then Done else Failed(OpenFailed(path)))
    ensures WalkListing(fs, protoc, path, output, listing, lang).0.dirs == fs.dirs + MirrorListing(output, listing)
    ensures WalkListing(fs, protoc, path, output, listing, lang).0.invocations ==
            fs.invocations + PlannedListing(path, output, listing, lang)
    decreases listing, if listing.Listed? then |listing.entries| + 1 else 0
  {
    if listing.Listed? {
      WalkEntriesClean(fs, protoc, path, output, listing, |listing.entries|, lang);
    }
  }

  lemma {:induction false} WalkEntriesClean(fs: Fs, protoc: Compiler, path: string, output: string, listing: Listing, n: nat, lang: string)
    requires NeverFails(protoc) && lang in Utilities.SupportedLanguages
    requires output in fs.dirs
    requires listing.Listed? && n <= |listing.entries|
    ensures WalkEntries(fs, protoc, path, output, listing, n, lang).1 == Done
    ensures WalkEntries(fs, protoc, path, output, listing, n, lang).0.dirs == fs.dirs + MirrorEntries(output, listing, n)
    ensures WalkEntries(fs, protoc, path, output, listing, n, lang).0.invocations ==
            fs.invocations + PlannedEntries(path, output, listing, n, lang)
    decreases listing, n, 1
  {
    if n > 0 {
      WalkEntriesClean(fs, protoc, path, output, listing, n - 1, lang);
      WalkEntriesCleanStep(fs, protoc, path, output, listing, n, lang);
    }
  }

  /** The inductive step of the lemma above: one more clean entry. */
  lemma {:induction false} WalkEntriesCleanStep(fs: Fs, protoc: Compiler, path: string, output: string, listing: Listing, n: nat, lang: string)
    requires NeverFails(protoc) && lang in Utilities.SupportedLanguages
    requires output in fs.dirs
    requires listing.Listed? && 0 < n <= |listing.entries|
    requires WalkEntries(fs, protoc, path, output, listing, n - 1, lang).1 == Done
    requires WalkEntries(fs, protoc, path, output, listing, n - 1, lang).0.dirs == fs.dirs + MirrorEntries(output, listing, n - 1)
    requires WalkEntries(fs, protoc, path, output, listing, n - 1, lang).0.invocations ==
             fs.invocations + PlannedEntries(path, output, listing, n - 1, lang)
    ensures WalkEntries(fs, protoc, path, output, listing, n, lang).1 == Done
    ensures WalkEntries(fs, protoc, path, output, listing, n, lang).0.dirs == fs.dirs + MirrorEntries(output, listing, n)
    ensures WalkEntries(fs, protoc, path, output, listing, n, lang).0.invocations ==
            fs.invocations + PlannedEntries(path, output, listing, n, lang)
    decreases listing, n, 0
  {
    var before := WalkEntries(fs, protoc, path, output, listing, n - 1, lang).0;
    var entry := listing.entries[n - 1];
    WalkEntriesStep(fs, protoc, path, output, listing, n, lang);
    VisitClean(before, protoc, path, output, entry, lang);
    ConcatAssociative(fs.invocations, PlannedEntries(path, output, listing, n - 1, lang), PlannedEntry(path, output, entry, lang));
  }

  lemma ConcatAssociative(a: seq<seq<string>>, b: seq<seq<string>>, c: seq<seq<string>>)
    ensures a + b + c == a + (b + c)
  {
  }

  /** After a clean prefix, the next entry's visit is the next step of the loop. */
  lemma WalkEntriesStep(fs: Fs, protoc: Compiler, path: string, output: string, listing: Listing, n: nat, lang: string)
    requires listing.Listed? && 0 < n <= |listing.entries|
    requires WalkEntries(fs, protoc, path, output, listing, n - 1, lang).1 == Done
    ensures WalkEntries(fs, protoc, path, output, listing, n, lang) ==
            Visit(WalkEntries(fs, protoc, path, output, listing, n - 1, lang).0, protoc, path, output, listing.entries[n - 1], lang)
  {
  }

  lemma {:induction false} VisitClean(fs: Fs, protoc: Compiler, path: string, output: string, entry: Entry, lang: string)
    requires NeverFails(protoc) && lang in Utilities.SupportedLanguages
    requires output in fs.dirs
    ensures Visit(fs, protoc, path, output, entry, lang).1 == Done
    ensures Visit(fs, protoc, path, output, entry, lang).0.dirs == fs.dirs + MirrorEntry(output, entry)
    ensures Visit(fs, protoc, path, output, entry, lang).0.invocations ==
            fs.invocations + PlannedEntry(path, output, entry, lang)
    decreases entry
  {
    var walked :=
      if entry.Directory? then
        var subdir := Join(output, entry.name);
        WalkListing(MakeDir(fs, output, subdir), protoc, Join(path, entry.name), subdir, entry.listing, lang).0
      else fs;
    var below := if entry.Directory? then PlannedListing(Join(path, entry.name), Join(output, entry.name), entry.listing, lang) else [];
    if entry.Directory? {
      var subdir := Join(output, entry.name);
      var made := MakeDir(fs, output, subdir);
      WalkListingClean(made, protoc, Join(path, entry.name), subdir, entry.listing, lang);
      assert walked.dirs == fs.dirs + MirrorEntry(output, entry);
    }
    assert walked.dirs == fs.dirs + MirrorEntry(output, entry) && walked.invocations == fs.invocations + below;
    if Utilities.CheckForFileExtension(entry.name, ProtoExtension) {
      BuildClean(walked, protoc, path, output, entry.name, lang);
      assert fs.invocations + below + [ProtocArgs(path, output, entry.name, lang).argv] ==
             fs.invocations + (below + [ProtocArgs(path, output, entry.name, lang).argv]);
    }
  }

  /** With a listed language and a `protoc` that never fails, a build issues its one run and succeeds. */
  lemma BuildClean(fs: Fs, protoc: Compiler, protoPath: string, output: string, protoFile: string, lang: string)
    requires NeverFails(protoc) && lang in Utilities.SupportedLanguages
    ensures ProtocArgs(protoPath, output, protoFile, lang).Args?
    ensures Build(fs, protoc, protoPath, output, protoFile, lang).1 == Done
    ensures Build(fs, protoc, protoPath, output, protoFile, lang).0.dirs == fs.dirs
    ensures Build(fs, protoc, protoPath, output, protoFile, lang).0.invocations ==
            fs.invocations + [ProtocArgs(protoPath, output, protoFile, lang).argv]
  {
    var a := ProtocArgs(protoPath, output, protoFile, lang);
    assert protoc(a.argv).exitCode == 0;
  }

  // ---------------------------------------------------------------------
  // The file system object

  class Workspace {
    var dirs: set<string>
    var invocations: seq<seq<string>>
    var announced: seq<string>
    const protoc: Compiler

    function State(): Fs
      reads this
    {
      Fs(dirs, invocations, announced)
    }

    constructor (existing: set<string>, protoc: Compiler)
      ensures State() == Fs(existing, [], []) && this.protoc == protoc
    {
      dirs, invocations, announced := existing, [], [];
      this.protoc := protoc;
    }

    /** Picks the argument vector, runs `protoc` once, maps a non-zero exit to an error. */
    method BuildProto(protoPath: string, output: string, protoFile: string, lang: string) returns (status: Status)
      modifies this
      ensures (State(), status) == Build(old(State()), protoc, protoPath, output, protoFile, lang)
    {
      var fullProtoFilePath := Join(protoPath, protoFile);
      if lang == "" {
        return Failed(LanguageNotSpecified);
      }
      var flags := OutputFlags(lang, output);
      if flags.None? {
        return Failed(LanguageNotSupported);
      }
      var command := flags.value + ["--proto_path=" + protoPath, fullProtoFilePath];
      var run := protoc(command);
      invocations := invocations + [command];
      if run.exitCode != 0 {
        return Failed(BuildFailed);
      }
      if run.stdout == "" {
        announced := announced + [protoFile];
      }
      return Done;
    }

    /** Walks the directory at `path` (listed as `listing`), mirroring it under `output`. */
    method ReadDirForProto(path: string, output: string, listing: Listing, lang: string, github: bool) returns (status: Status)
      modifies this
      ensures (State(), status) == WalkListing(old(State()), protoc, path, output, listing, lang)
      decreases listing
    {
      if listing.Unreadable? {
        return Failed(OpenFailed(path));
      }
      var files := listing.entries;
      for i := 0 to |files|
        invariant (State(), Done) == WalkEntries(old(State()), protoc, path, output, listing, i, lang)
      {
        var file := files[i];
        if file.Directory? {
          var subdir := Join(output, file.name);
          if subdir !in dirs && output in dirs {
            dirs := dirs + {subdir};
          }
          var _ := ReadDirForProto(Join(path, file.name), subdir, file.listing, lang, github);
        }
        if Utilities.CheckForFileExtension(file.name, ProtoExtension) {
          var err := BuildProto(path, output, file.name, lang);
          if err.Failed? {
            WalkEntriesStaysFailed(old(State()), protoc, path, output, listing, i + 1, |files|, lang);
            return err;
          }
        }
      }
      return Done;
    }
  }
}
