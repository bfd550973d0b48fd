/**
 * tools/apiserver-runtime-gen/main.go: the code-generator driver. It
 * checks its flags, recognises API version directory names, works out the
 * default versions and the module root, and runs the selected generators
 * in a fixed order. The processes it starts and the filesystem it reads are
 * parameters: a generator command's failure is looked up in a map, a
 * directory listing is a value.
 */
module CodeGen {
  import opened Wrappers
  import opened Strings
  import opened Errors

  // ---------------------------------------------------------------------
  // versionRegexp: ^v[0-9]+((alpha|beta)?[0-9]+)?$

  /** The length of the run of digits at the front of s. */
  function DigitRun(s: string): (n: nat)
    ensures n <= |s| && AllDigits(s[..n])
    ensures n < |s| ==> !IsDigit(s[n])
  {
    if |s| > 0 && IsDigit(s[0]) then
      var rest := DigitRun(s[1..]);
      assert s[..1 + rest] == [s[0]] + s[1..][..rest];
      1 + rest
    else 0
  }

  /** What may follow the major number: alpha or beta and then at least one digit. */
  predicate StageTail(t: string) {
    || (HasPrefix(t, "alpha") && |t| > 5 && AllDigits(t[5..]))
    || (HasPrefix(t, "beta") && |t| > 4 && AllDigits(t[4..]))
  }

  /**
   * versionRegexp.MatchString. The regex's optional digits with no stage
   * only lengthen the major number, so after the longest run of digits
   * either nothing is left or a stage and its number.
   */
  predicate IsVersion(s: string) {
    |s| >= 2 && s[0] == 'v' &&
    var n := DigitRun(s[1..]);
    n > 0 && (1 + n == |s| || StageTail(s[1 + n..]))
  }

  /** The three parts the regex names: the major digits, the optional stage and its digits. */
  datatype VersionName = VersionName(major: string, stage: string, minor: string)

  /** The parts of one string the regex accepts, read off its alternatives. */
  predicate WellFormed(v: VersionName) {
    && |v.major| > 0 && AllDigits(v.major)
    && (v.stage == "" || v.stage == "alpha" || v.stage == "beta")
    && AllDigits(v.minor)
    && (v.stage != "" ==> |v.minor| > 0)
  }

  function Compose(v: VersionName): string {
    "v" + v.major + v.stage + v.minor
  }

  lemma {:induction false} AllDigitsConcat(a: string, b: string)
    requires AllDigits(a) && AllDigits(b)
    ensures AllDigits(a + b)
  {
    assert forall i :: 0 <= i < |a + b| ==> (a + b)[i] == if i < |a| then a[i] else b[i - |a|];
  }

  /** Every string the regex describes is accepted. */
  lemma ComposedIsVersion(v: VersionName)
    requires WellFormed(v)
    ensures IsVersion(Compose(v))
  {
    if v.stage == "" {
      AllDigitsConcat(v.major, v.minor);
      assert Compose(v) == "v" + (v.major + v.minor);
      StableIsVersion(v.major + v.minor);
    } else {
      var tail := v.stage + v.minor;
      assert Compose(v) == "v" + v.major + tail;
      if v.stage == "alpha" {
        assert tail[..5] == "alpha" && tail[5..] == v.minor;
      } else {
        assert tail[..4] == "beta" && tail[4..] == v.minor;
      }
      StagedIsVersion(v.major, tail);
    }
  }

  lemma StableIsVersion(digits: string)
    requires |digits| > 0 && AllDigits(digits)
    ensures IsVersion("v" + digits)
  {
    var s := "v" + digits;
    assert s[1..] == digits + "";
    DigitRunOf(digits, "");
  }

  lemma StagedIsVersion(major: string, tail: string)
    requires |major| > 0 && AllDigits(major) && StageTail(tail)
    ensures IsVersion("v" + major + tail)
  {
    var s := "v" + major + tail;
    assert s[1..] == major + tail;
    assert tail[0] == 'a' || tail[0] == 'b';
    DigitRunOf(major, tail);
    assert s[1 + |major|..] == tail;
  }

  /** The digit run of digits followed by a tail that starts with no digit. */
  lemma {:induction false} DigitRunOf(digits: string, tail: string)
    requires AllDigits(digits)
    requires |tail| > 0 ==> !IsDigit(tail[0])
    ensures DigitRun(digits + tail) == |digits|
    decreases |digits|
  {
    if |digits| == 0 {
      assert digits + tail == tail;
    } else {
      assert (digits + tail)[1..] == digits[1..] + tail;
      DigitRunOf(digits[1..], tail);
    }
  }

  /** Every accepted string is one the regex describes. */
  lemma VersionIsComposed(s: string) returns (v: VersionName)
    requires IsVersion(s)
    ensures WellFormed(v) && Compose(v) == s
  {
    var n := DigitRun(s[1..]);
    var major := s[1..1 + n];
    var rest := s[1 + n..];
    assert s[1..][..n] == major;
    assert s == "v" + major + rest by {
      assert s == s[..1] + s[1..1 + n] + s[1 + n..];
    }
    if rest == [] {
      v := VersionName(major, "", "");
      assert Compose(v) == "v" + major + rest;
    } else if HasPrefix(rest, "alpha") && |rest| > 5 && AllDigits(rest[5..]) {
      v := VersionName(major, "alpha", rest[5..]);
      assert rest == rest[..5] + rest[5..];
      assert Compose(v) == "v" + major + rest;
    } else {
      v := VersionName(major, "beta", rest[4..]);
      assert rest == rest[..4] + rest[4..];
      assert Compose(v) == "v" + major + rest;
    }
  }

  /** The two directions together: the predicate accepts exactly the language of the regex. */
  lemma VersionIff(s: string)
    ensures IsVersion(s) <==> exists v :: WellFormed(v) && Compose(v) == s
  {
    if IsVersion(s) {
      var v := VersionIsComposed(s);
    }
    forall v | WellFormed(v) && Compose(v) == s
      ensures IsVersion(s)
    {
      ComposedIsVersion(v);
    }
  }

  /** Version directories the pattern accepts: stable, alpha and beta. */
  lemma AcceptsStable()
    ensures IsVersion("v1") && IsVersion("v10")
  {
  }

  lemma AcceptsAlpha()
    ensures IsVersion("v1alpha1")
  {
  }

  lemma AcceptsBeta()
    ensures IsVersion("v2beta3")
  {
  }

  lemma RejectedVersions()
    ensures !IsVersion("v1alpha") && !IsVersion("alpha1") && !IsVersion("v1gamma1") && !IsVersion("v")
  {
    assert "v1alpha"[1..] == "1" + "alpha";
    DigitRunOf("1", "alpha");
    assert "v1alpha"[2..] == "alpha";
    assert "v1gamma1"[1..] == "1" + "gamma1";
    DigitRunOf("1", "gamma1");
    assert "v1gamma1"[2..] == "gamma1";
    assert "gamma1"[..5] != "alpha" && "gamma1"[..4] != "beta";
  }

  // ---------------------------------------------------------------------
  // preRunE

  const MissingModule := Plain("must specify module")
  const MissingVersions := Plain("must specify versions")

  /** preRunE: the module flag is checked first, then the versions. */
  function PreRun(modulePath: string, versions: seq<string>): (r: Option<Error>)
    ensures r.None? <==> modulePath != "" && |versions| > 0
    ensures modulePath == "" ==> r == Some(MissingModule)
    ensures modulePath != "" && |versions| == 0 ==> r == Some(MissingVersions)
  {
    if modulePath == "" then Some(MissingModule)
    else if |versions| == 0 then Some(MissingVersions)
    else None
  }

  // ---------------------------------------------------------------------
  // Paths

  /** The non-empty elements, in order. */
  function NonEmpty(elems: seq<string>): (r: seq<string>)
    ensures forall x :: x in r ==> x in elems && x != ""
    ensures forall x :: x in elems && x != "" ==> x in r
  {
    if |elems| == 0 then []
    else (if elems[0] == "" then [] else [elems[0]]) + NonEmpty(elems[1..])
  }

  /** path.Join and filepath.Join on clean elements: the non-empty ones with "/" between. */
  function JoinPath(elems: seq<string>): string {
    Join(NonEmpty(elems), "/")
  }

  /**
   * A clean path (path.Clean leaves it unchanged): rooted or not, and its
   * elements, none of them empty, "." or "..". The working directory the
   * tool starts from is one.
   */
  datatype PathElems = PathElems(rooted: bool, elems: seq<string>)

  type CleanPath = p: PathElems | forall i :: 0 <= i < |p.elems| ==> p.elems[i] != ""
    witness PathElems(true, [])

  /** The path as text: "/" or "." when it has no elements. */
  function Text(p: CleanPath): (t: string)
    ensures |t| > 0
  {
    if p.rooted then "/" + Join(p.elems, "/")
    else if |p.elems| == 0 then "."
    else
      JoinNonEmpty(p.elems);
      Join(p.elems, "/")
  }

  lemma JoinNonEmpty(elems: seq<string>)
    requires |elems| > 0 && elems[0] != ""
    ensures |Join(elems, "/")| > 0
  {
    if |elems| > 1 {
      assert Join(elems, "/") == elems[0] + "/" + Join(elems[1..], "/");
    }
  }

  /** path.Dir: the path without its last element; "/" and "." are their own parent. */
  function Dir(p: CleanPath): (d: CleanPath)
    ensures d == p <==> |p.elems| == 0
    ensures d.rooted == p.rooted
  {
    if |p.elems| == 0 then p else PathElems(p.rooted, p.elems[..|p.elems| - 1])
  }

  /** dir, its parent, its grandparent, and so on up to the fixpoint. */
  function Ancestors(p: CleanPath): (r: seq<CleanPath>)
    ensures |r| == |p.elems| + 1 && r[0] == p
    ensures Dir(r[|r| - 1]) == r[|r| - 1]
    decreases |p.elems|
  {
    if Dir(p) == p then [p] else [p] + Ancestors(Dir(p))
  }

  /** Each ancestor is the parent of the one before it, one element shorter. */
  lemma {:induction false} AncestorsChain(p: CleanPath, i: nat)
    requires i + 1 < |Ancestors(p)|
    ensures Ancestors(p)[i + 1] == Dir(Ancestors(p)[i]) != Ancestors(p)[i]
    ensures |Ancestors(p)[i].elems| == |p.elems| - i
    decreases |p.elems|
  {
    if i > 0 {
      AncestorsChain(Dir(p), i - 1);
    }
  }

  /** The position of the first element of s that is in dirs, or |s| if there is none. */
  function FirstIn(s: seq<CleanPath>, dirs: set<CleanPath>): (k: nat)
    ensures k <= |s|
    ensures forall j :: 0 <= j < k ==> s[j] !in dirs
    ensures k < |s| ==> s[k] in dirs
  {
    if |s| == 0 then 0
    else if s[0] in dirs then 0
    else 1 + FirstIn(s[1..], dirs)
  }

  lemma {:induction false} FirstInAfter(checked: seq<CleanPath>, rest: seq<CleanPath>, dirs: set<CleanPath>)
    requires forall j :: 0 <= j < |checked| ==> checked[j] !in dirs
    ensures FirstIn(checked + rest, dirs) == |checked| + FirstIn(rest, dirs)
    decreases |checked|
  {
    if |checked| > 0 {
      assert (checked + rest)[1..] == checked[1..] + rest;
      FirstInAfter(checked[1..], rest, dirs);
    } else {
      assert checked + rest == rest;
    }
  }

  /**
   * The module root findModuleRoot returns: the text of the nearest
   * ancestor holding go.mod, or "" (which is no path's text) if none does.
   */
  function ModuleRoot(dir: CleanPath, withGoMod: set<CleanPath>): (r: string)
    ensures var a := Ancestors(dir); var k := FirstIn(a, withGoMod);
      (k < |a| ==> r == Text(a[k]) && a[k] in withGoMod) && (k == |a| ==> r == "")
    ensures r == "" <==> forall j :: 0 <= j < |Ancestors(dir)| ==> Ancestors(dir)[j] !in withGoMod
  {
    var a := Ancestors(dir);
    var k := FirstIn(a, withGoMod);
    if k < |a| then Text(a[k]) else ""
  }

  /**
   * findModuleRoot: climb from dir until a directory holds go.mod (the
   * directories that do are withGoMod), giving up at the fixpoint of Dir.
   */
  method FindModuleRoot(dir: CleanPath, withGoMod: set<CleanPath>) returns (r: string)
    ensures r == ModuleRoot(dir, withGoMod)
  {
    var d := dir;
    ghost var checked: seq<CleanPath> := [];
    while true
      invariant Ancestors(dir) == checked + Ancestors(d)
      invariant forall j :: 0 <= j < |checked| ==> checked[j] !in withGoMod
      decreases |d.elems|
    {
      if d in withGoMod {
        FoundAt(dir, checked, d, withGoMod);
        return Text(d);
      }
      var parent := Dir(d);
      if parent == d {
        NoneFound(dir, checked, d, withGoMod);
        return "";
      }
      ghost var rest := Ancestors(parent);
      assert Ancestors(d) == [d] + rest;
      assert checked + [d] + rest == checked + ([d] + rest);
      checked := checked + [d];
      d := parent;
    }
  }

  lemma FoundAt(dir: CleanPath, checked: seq<CleanPath>, d: CleanPath, withGoMod: set<CleanPath>)
    requires Ancestors(dir) == checked + Ancestors(d)
    requires forall j :: 0 <= j < |checked| ==> checked[j] !in withGoMod
    requires d in withGoMod
    ensures ModuleRoot(dir, withGoMod) == Text(d)
  {
    FirstInAfter(checked, Ancestors(d), withGoMod);
    assert FirstIn(Ancestors(d), withGoMod) == 0;
    assert Ancestors(dir)[|checked|] == d;
  }

  lemma NoneFound(dir: CleanPath, checked: seq<CleanPath>, d: CleanPath, withGoMod: set<CleanPath>)
    requires Ancestors(dir) == checked + Ancestors(d)
    requires forall j :: 0 <= j < |checked| ==> checked[j] !in withGoMod
    requires d !in withGoMod && Dir(d) == d
    ensures ModuleRoot(dir, withGoMod) == ""
  {
    FirstInAfter(checked, Ancestors(d), withGoMod);
    assert Ancestors(d) == [d];
    assert FirstIn([d], withGoMod) == 1;
  }

  /** The root found is never farther than an ancestor known to hold go.mod. */
  lemma ModuleRootNearest(dir: CleanPath, withGoMod: set<CleanPath>, i: nat)
    requires i < |Ancestors(dir)| && Ancestors(dir)[i] in withGoMod
    ensures exists k :: 0 <= k <= i && Ancestors(dir)[k] in withGoMod && ModuleRoot(dir, withGoMod) == Text(Ancestors(dir)[k])
  {
    var k := FirstIn(Ancestors(dir), withGoMod);
    assert k <= i;
  }

  // ---------------------------------------------------------------------
  // Default versions

  datatype DirEntry = DirEntry(name: string, isDir: bool)

  /** One entry of pkg/apis, with the listing of its own contents (or the error reading it). */
  datatype GroupDir = GroupDir(entry: DirEntry, contents: seq<DirEntry>, readError: Option<Error>)

  /** The package path of one API version. */
  function VersionPath(modulePath: string, group: string, version: string): string {
    JoinPath([modulePath, "pkg", "apis", group, version])
  }

  predicate IsVersionDir(e: DirEntry) {
    e.isDir && IsVersion(e.name)
  }

  /** The version packages of one group directory: its sub-directories whose name is a version, in listing order. */
  function VersionDirs(modulePath: string, group: string, es: seq<DirEntry>): (r: seq<string>)
    ensures forall i :: 0 <= i < |es| && IsVersionDir(es[i]) ==> VersionPath(modulePath, group, es[i].name) in r
    ensures forall x :: x in r ==> exists i :: 0 <= i < |es| && IsVersionDir(es[i]) && x == VersionPath(modulePath, group, es[i].name)
  {
    if |es| == 0 then []
    else
      var last := es[|es| - 1];
      var prev := VersionDirs(modulePath, group, es[..|es| - 1]);
      assert forall i :: 0 <= i < |es| - 1 ==> es[..|es| - 1][i] == es[i];
      prev + (if IsVersionDir(last) then [VersionPath(modulePath, group, last.name)] else [])
  }

  /** The version packages of all group directories, one group after the other. */
  function GroupVersionDirs(modulePath: string, groups: seq<GroupDir>): (r: seq<string>) {
    if |groups| == 0 then []
    else
      var last := groups[|groups| - 1];
      GroupVersionDirs(modulePath, groups[..|groups| - 1]) +
      (if last.entry.isDir then VersionDirs(modulePath, last.entry.name, last.contents) else [])
  }

  /** A group directory whose contents could not be read. */
  predicate Unreadable(g: GroupDir) {
    g.entry.isDir && g.readError.Some?
  }

  function FirstUnreadable(groups: seq<GroupDir>): (k: nat)
    ensures k <= |groups|
    ensures forall j :: 0 <= j < k ==> !Unreadable(groups[j])
    ensures k < |groups| ==> Unreadable(groups[k])
  {
    if |groups| == 0 then 0
    else if Unreadable(groups[0]) then 0
    else 1 + FirstUnreadable(groups[1..])
  }

  /** The inner loop over one group directory's listing. */
  method GroupVersions(modulePath: string, group: string, contents: seq<DirEntry>) returns (versions: seq<string>)
    ensures versions == VersionDirs(modulePath, group, contents)
  {
    versions := [];
    for j := 0 to |contents|
      invariant versions == VersionDirs(modulePath, group, contents[..j])
    {
      var v := contents[j];
      assert contents[..j + 1][..j] == contents[..j];
      if v.isDir {
        if !IsVersion(v.name) {
          continue;
        }
        versions := versions + [VersionPath(modulePath, group, v.name)];
      }
    }
    assert contents[..|contents|] == contents;
  }

  /**
   * The default of the versions flag. With no pkg/apis listing only a
   * warning is written and there are no defaults; a group directory that
   * cannot be listed ends the program (log.Fatal).
   */
  method DefaultVersions(modulePath: string, apis: Option<seq<GroupDir>>) returns (r: Outcome<seq<string>>)
    ensures apis.None? ==> r == Ok([])
    ensures apis.Some? && FirstUnreadable(apis.value) < |apis.value| ==>
      r == Panic(Message(apis.value[FirstUnreadable(apis.value)].readError.value))
    ensures apis.Some? && FirstUnreadable(apis.value) == |apis.value| ==>
      r == Ok(GroupVersionDirs(modulePath, apis.value))
  {
    if apis.None? {
      return Ok([]);
    }
    var groups := apis.value;
    var defaults: seq<string> := [];
    for k := 0 to |groups|
      invariant forall j :: 0 <= j < k ==> !Unreadable(groups[j])
      invariant defaults == GroupVersionDirs(modulePath, groups[..k])
    {
      var g := groups[k];
      assert groups[..k + 1][..k] == groups[..k];
      if g.entry.isDir {
        if g.readError.Some? {
          return Panic(Message(g.readError.value));
        }
        var versions := GroupVersions(modulePath, g.entry.name, g.contents);
        defaults := defaults + versions;
      }
    }
    assert groups[..|groups|] == groups;
    return Ok(defaults);
  }

  // ---------------------------------------------------------------------
  // getCmd and doGen

  /** The arguments of a command, the program first (exec.Cmd.Args). */
  datatype Cmd = Cmd(args: seq<string>)

  /** The flag values doGen reads: GOBIN, the output directory, the header file, the module path, the versions. */
  datatype Config = Config(bin: string, output: string, header: string, modulePath: string, versions: seq<string>)

  /** The command getCmd builds. */
  function CmdFor(cfg: Config, name: string, extra: seq<string>): (e: Cmd)
    ensures |e.args| == 5 + |extra|
    ensures e.args[0] == JoinPath([cfg.bin, name])
    ensures e.args[1..5] == ["--output-base", cfg.output, "--go-header-file", cfg.header]
    ensures e.args[5..] == extra
  {
    Cmd([JoinPath([cfg.bin, name]), "--output-base", cfg.output, "--go-header-file", cfg.header] + extra)
  }

  /** getCmd: the common arguments, and then the generator's own appended in order. */
  method GetCmd(cfg: Config, name: string, extra: seq<string>) returns (e: Cmd)
    ensures e == CmdFor(cfg, name, extra)
  {
    e := Cmd([JoinPath([cfg.bin, name]), "--output-base", cfg.output, "--go-header-file", cfg.header]);
    e := e.(args := e.args + extra);
  }

  /** The generators doGen knows. */
  datatype Generator = DeepCopy | OpenAPI | Client | Lister | Informer

  /** The name the generator flag and the binary use. */
  function Name(g: Generator): string {
    match g
    case DeepCopy => "deepcopy-gen"
    case OpenAPI => "openapi-gen"
    case Client => "client-gen"
    case Lister => "lister-gen"
    case Informer => "informer-gen"
  }

  lemma NamesDistinct(a: Generator, b: Generator)
    requires a != b
    ensures Name(a) != Name(b)
  {
  }

  /** The order doGen runs them in, whatever the order of the flag. */
  const GeneratorOrder: seq<Generator> := [DeepCopy, OpenAPI, Client, Lister, Informer]

  /** The position of a generator in the fixed order. */
  function Rank(g: Generator): (k: nat)
    ensures k < 5 && GeneratorOrder[k] == g
  {
    match g
    case DeepCopy => 0
    case OpenAPI => 1
    case Client => 2
    case Lister => 3
    case Informer => 4
  }

  /** The packages openapi-gen always reads before the versions. */
  const OpenAPIBaseInputs :=
    "k8s.io/apimachinery/pkg/api/resource,k8s.io/apimachinery/pkg/apis/meta/v1,"
    + "k8s.io/apimachinery/pkg/runtime,k8s.io/apimachinery/pkg/version,"

  /** Each generator's own arguments. */
  function GenArgs(cfg: Config, g: Generator): seq<string> {
    var inputs := Join(cfg.versions, ",");
    var m := cfg.modulePath;
    match g
    case DeepCopy =>
      ["--input-dirs", inputs, "-O", "zz_generated.deepcopy", "--bounding-dirs", JoinPath([m, "pkg/apis"])]
    case OpenAPI =>
      ["--input-dirs", OpenAPIBaseInputs + inputs, "-O", "zz_generated.openapi",
       "--output-package", JoinPath([m, "pkg/generated/openapi"])]
    case Client =>
      ["--clientset-name", "versioned", "--input-base", "", "--input", inputs,
       "--output-package", JoinPath([m, "pkg/generated/clientset"])]
    case Lister =>
      ["--input-dirs", inputs, "--output-package", JoinPath([m, "pkg/generated/listers"])]
    case Informer =>
      ["--input-dirs", inputs,
       "--versioned-clientset-package", JoinPath([m, "pkg/generated/clientset/versioned"]),
       "--listers-package", JoinPath([m, "pkg/generated/listers"]),
       "--output-package", JoinPath([m, "pkg/generated/informers"])]
  }

  /** The command a generator runs: getCmd with the generator's name and arguments. */
  function GenCmd(cfg: Config, g: Generator): Cmd {
    CmdFor(cfg, Name(g), GenArgs(cfg, g))
  }

  /** The command of one `if gen[...]` block: none unless the generator was flagged. */
  function Block(cfg: Config, gens: set<string>, g: Generator): (r: seq<Cmd>) {
    if Name(g) in gens then [GenCmd(cfg, g)] else []
  }

  /** The commands doGen runs when none fails: the five blocks in their order. */
  function Plan(cfg: Config, gens: set<string>): seq<Cmd> {
    Block(cfg, gens, DeepCopy) + Block(cfg, gens, OpenAPI) + Block(cfg, gens, Client)
    + Block(cfg, gens, Lister) + Block(cfg, gens, Informer)
  }

  /** The commands of a list of generators, in its order. */
  function Commands(cfg: Config, gs: seq<Generator>): (r: seq<Cmd>)
    ensures |r| == |gs|
  {
    if |gs| == 0 then [] else [GenCmd(cfg, gs[0])] + Commands(cfg, gs[1..])
  }

  lemma {:induction false} CommandsAppend(cfg: Config, a: seq<Generator>, b: seq<Generator>)
    ensures Commands(cfg, a + b) == Commands(cfg, a) + Commands(cfg, b)
    decreases |a|
  {
    if |a| > 0 {
      assert (a + b)[1..] == a[1..] + b;
      CommandsAppend(cfg, a[1..], b);
    } else {
      assert a + b == b;
    }
  }

  /** The generator of one block, if flagged. */
  function Chosen(gens: set<string>, g: Generator): seq<Generator> {
    if Name(g) in gens then [g] else []
  }

  /** The generators doGen runs when none fails, in the order of its blocks. */
  function Selected(gens: set<string>): seq<Generator> {
    Chosen(gens, DeepCopy) + Chosen(gens, OpenAPI) + Chosen(gens, Client)
    + Chosen(gens, Lister) + Chosen(gens, Informer)
  }

  /** Strictly in the fixed order, hence no generator twice. */
  predicate InOrder(gs: seq<Generator>) {
    forall i, j :: 0 <= i < j < |gs| ==> Rank(gs[i]) < Rank(gs[j])
  }

  lemma InOrderThen(gs: seq<Generator>, g: Generator, gens: set<string>)
    requires InOrder(gs) && forall i :: 0 <= i < |gs| ==> Rank(gs[i]) < Rank(g)
    ensures InOrder(gs + Chosen(gens, g)) && forall i :: 0 <= i < |gs + Chosen(gens, g)| ==> Rank((gs + Chosen(gens, g))[i]) <= Rank(g)
  {
  }

  /** The plan is the commands of the selected generators, in their order. */
  lemma PlanIsSelected(cfg: Config, gens: set<string>)
    ensures Plan(cfg, gens) == Commands(cfg, Selected(gens))
  {
    var c1, c2, c3, c4, c5 := Chosen(gens, DeepCopy), Chosen(gens, OpenAPI), Chosen(gens, Client), Chosen(gens, Lister), Chosen(gens, Informer);
    CommandsAppend(cfg, c1 + c2 + c3 + c4, c5);
    CommandsAppend(cfg, c1 + c2 + c3, c4);
    CommandsAppend(cfg, c1 + c2, c3);
    CommandsAppend(cfg, c1, c2);
    ChosenCommands(cfg, gens, DeepCopy);
    ChosenCommands(cfg, gens, OpenAPI);
    ChosenCommands(cfg, gens, Client);
    ChosenCommands(cfg, gens, Lister);
    ChosenCommands(cfg, gens, Informer);
  }

  lemma ChosenCommands(cfg: Config, gens: set<string>, g: Generator)
    ensures Commands(cfg, Chosen(gens, g)) == Block(cfg, gens, g)
  {
    if Name(g) in gens {
      assert Chosen(gens, g)[1..] == [];
    }
  }

  /** The selected generators are the flagged ones doGen knows, and no other name. */
  lemma SelectedMembers(gens: set<string>)
    ensures forall g :: g in Selected(gens) <==> Name(g) in gens
  {
    forall g
      ensures g in Selected(gens) <==> Name(g) in gens
    {
      var c1, c2, c3, c4, c5 := Chosen(gens, DeepCopy), Chosen(gens, OpenAPI), Chosen(gens, Client), Chosen(gens, Lister), Chosen(gens, Informer);
      assert g in Selected(gens) <==> g in c1 || g in c2 || g in c3 || g in c4 || g in c5;
    }
  }

  /** Each selected generator appears once, and earlier in the fixed order runs earlier. */
  lemma SelectedInOrder(gens: set<string>)
    ensures var sel := Selected(gens);
      && |sel| <= 5
      && InOrder(sel)
      && (forall i, j :: 0 <= i < j < |sel| ==> Name(sel[i]) != Name(sel[j]))
  {
    var c1, c2, c3, c4, c5 := Chosen(gens, DeepCopy), Chosen(gens, OpenAPI), Chosen(gens, Client), Chosen(gens, Lister), Chosen(gens, Informer);
    InOrderThen([], DeepCopy, gens);
    assert [] + c1 == c1;
    InOrderThen(c1, OpenAPI, gens);
    InOrderThen(c1 + c2, Client, gens);
    InOrderThen(c1 + c2 + c3, Lister, gens);
    InOrderThen(c1 + c2 + c3 + c4, Informer, gens);
    var sel := Selected(gens);
    assert InOrder(sel);
    forall i, j | 0 <= i < j < |sel|
      ensures Name(sel[i]) != Name(sel[j])
    {
      NamesDistinct(sel[i], sel[j]);
    }
  }

  /** The generators named by the flag, as a set: their order and repetitions do not matter. */
  function Flagged(generators: seq<string>): set<string> {
    set g | g in generators
  }

  /** The gen map: true for every generator named by the flag. */
  method Selection(generators: seq<string>) returns (gen: map<string, bool>)
    ensures gen.Keys == Flagged(generators)
    ensures forall g :: g in gen ==> gen[g]
  {
    gen := map[];
    for k := 0 to |generators|
      invariant gen.Keys == set i | 0 <= i < k :: generators[i]
      invariant forall g :: g in gen ==> gen[g]
    {
      gen := gen[generators[k] := true];
    }
    assert gen.Keys == Flagged(generators) by {
      forall g | g in generators ensures g in gen.Keys {
        var i :| 0 <= i < |generators| && generators[i] == g;
      }
    }
  }

  /** Running the commands in order until one fails: the error, if any, and the commands started. */
  function Execution(plan: seq<Cmd>, failures: map<Cmd, Error>): (Option<Error>, seq<Cmd>) {
    if |plan| == 0 then (None, [])
    else if plan[0] in failures then (Some(failures[plan[0]]), [plan[0]])
    else
      var rest := Execution(plan[1..], failures);
      (rest.0, [plan[0]] + rest.1)
  }

  /** The commands started are a prefix of the plan; all of it ran with no error, or the last one started failed and none before it. */
  lemma {:induction false} ExecutionStopsAtFirstFailure(plan: seq<Cmd>, failures: map<Cmd, Error>)
    ensures var (r, ran) := Execution(plan, failures);
      && |ran| <= |plan| && ran == plan[..|ran|]
      && (forall j :: 0 <= j < |ran| - 1 ==> ran[j] !in failures)
      && (r.None? <==> ran == plan && forall c :: c in ran ==> c !in failures)
      && (r.Some? ==> |ran| > 0 && ran[|ran| - 1] in failures && r == Some(failures[ran[|ran| - 1]]))
  {
    if |plan| > 0 && plan[0] !in failures {
      ExecutionStopsAtFirstFailure(plan[1..], failures);
      var rest := Execution(plan[1..], failures);
      assert plan == [plan[0]] + plan[1..];
      assert forall j :: 1 <= j < |rest.1| + 1 ==> ([plan[0]] + rest.1)[j] == rest.1[j - 1];
    }
  }

  /** Execution of two plans one after the other: the second runs only if the first had no failure. */
  lemma {:induction false} ExecutionAppend(a: seq<Cmd>, b: seq<Cmd>, failures: map<Cmd, Error>)
    ensures Execution(a, failures).0.None? ==> Execution(a, failures).1 == a
    ensures Execution(a + b, failures) ==
      if Execution(a, failures).0.Some? then Execution(a, failures)
      else (Execution(b, failures).0, a + Execution(b, failures).1)
    decreases |a|
  {
    if |a| == 0 {
      assert a + b == b;
      assert a + Execution(b, failures).1 == Execution(b, failures).1;
    } else {
      assert (a + b)[0] == a[0];
      assert (a + b)[1..] == a[1..] + b;
      ExecutionAppend(a[1..], b, failures);
      if a[0] !in failures && Execution(a[1..], failures).0.None? {
        assert a == [a[0]] + a[1..];
        var eb := Execution(b, failures).1;
        assert [a[0]] + (a[1..] + eb) == a + eb;
      }
    }
  }

  /**
   * One `if gen[...]` block of doGen: getCmd and run for the generator if
   * it was flagged; started holds the command started, failed its error.
   */
  method RunBlock(cfg: Config, gen: map<string, bool>, g: Generator, failures: map<Cmd, Error>)
      returns (failed: Option<Error>, started: seq<Cmd>)
    requires forall k :: k in gen ==> gen[k]
    ensures (failed, started) == Execution(Block(cfg, gen.Keys, g), failures)
  {
    var name := Name(g);
    if name in gen && gen[name] {
      var c := GetCmd(cfg, name, GenArgs(cfg, g));
      started := [c];
      failed := if c in failures then Some(failures[c]) else None;
      assert GenCmd(cfg, g) == c;
      assert Block(cfg, gen.Keys, g) == [c];
      assert [c][1..] == [] && [c] + [] == [c];
    } else {
      started := [];
      failed := None;
    }
  }

  /**
   * doGen: the flagged generators become a set, then the five blocks run
   * in their fixed order, each command's failure looked up in `failures`;
   * the first failure is returned and nothing after it runs.
   */
  method DoGen(cfg: Config, generators: seq<string>, failures: map<Cmd, Error>) returns (r: Option<Error>, ran: seq<Cmd>)
    ensures (r, ran) == Execution(Plan(cfg, Flagged(generators)), failures)
  {
    var gen := Selection(generators);
    ghost var gs := gen.Keys;
    ghost var b1, b2, b3, b4, b5 := Block(cfg, gs, DeepCopy), Block(cfg, gs, OpenAPI), Block(cfg, gs, Client), Block(cfg, gs, Lister), Block(cfg, gs, Informer);
    ExecutionAppend(b1, b2, failures);
    ExecutionAppend(b1 + b2, b3, failures);
    ExecutionAppend(b1 + b2 + b3, b4, failures);
    ExecutionAppend(b1 + b2 + b3 + b4, b5, failures);
    ExecutionAppend(b1, [], failures);
    ExecutionAppend(b1 + b2, [], failures);
    ExecutionAppend(b1 + b2 + b3, [], failures);
    ExecutionAppend(b1 + b2 + b3 + b4, [], failures);
    var failed, started := RunBlock(cfg, gen, DeepCopy, failures);
    ran := started;
    if failed.Some? {
      return failed, ran;
    }
    failed, started := RunBlock(cfg, gen, OpenAPI, failures);
    ran := ran + started;
    if failed.Some? {
      return failed, ran;
    }
    failed, started := RunBlock(cfg, gen, Client, failures);
    ran := ran + started;
    if failed.Some? {
      return failed, ran;
    }
    failed, started := RunBlock(cfg, gen, Lister, failures);
    ran := ran + started;
    if failed.Some? {
      return failed, ran;
    }
    failed, started := RunBlock(cfg, gen, Informer, failures);
    ran := ran + started;
    r := failed;
  }
}
