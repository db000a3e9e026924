/** Layered environment files (app/envfiles.go): system, user, .env and profile files
    merged in order under the shell's own environment. */
module EnvFiles {
  import opened Json
  import opened Strings

  type Env = map<string, string>

  /** The readable files and what they define. */
  type Files = map<string, Env>

  function Get(env: Env, k: string): string {
    if k in env then env[k] else ""
  }

  // --- profiles ----------------------------------------------------------

  function Split(s: string): seq<string> {
    if ',' !in s then [s]
    else
      var at := Comma(s);
      [s[..at]] + Split(s[at + 1..])
  }

  function Comma(s: string): (at: nat)
    requires ',' in s
    ensures at < |s| && s[at] == ',' && ',' !in s[..at]
  {
    if s[0] == ',' then 0
    else
      assert s == [s[0]] + s[1..];
      var at := Comma(s[1..]) + 1;
      assert s[..at] == [s[0]] + s[1..][..at - 1];
      at
  }

  predicate HasDotDot(s: string) {
    exists i :: 0 <= i < |s| - 1 && s[i] == '.' == s[i + 1]
  }

  /** validateProfileName: nothing that could leave the working directory. */
  predicate ValidName(name: string) {
    '/' !in name && '\\' !in name && !HasDotDot(name)
  }

  predicate Usable(part: string) {
    Trim(part) != "" && ValidName(Trim(part))
  }

  function Usables(parts: seq<string>): seq<string> {
    if parts == [] then []
    else
      var rest := Usables(parts[..|parts| - 1]);
      if Usable(parts[|parts| - 1]) then rest + [Trim(parts[|parts| - 1])] else rest
  }

  function Profiles(s: string): seq<string> {
    if s == "" then [] else Usables(Split(s))
  }

  /** splitProfiles: blank and invalid names are dropped, the rest kept in order. */
  method SplitProfiles(s: string) returns (result: seq<string>)
    ensures result == Profiles(s)
  {
    if s == "" {
      return [];
    }
    var parts := Split(s);
    result := [];
    for i := 0 to |parts|
      invariant result == Usables(parts[..i])
    {
      assert parts[..i + 1][..i] == parts[..i];
      var trimmed := Trim(parts[i]);
      if trimmed != "" && ValidName(trimmed) {
        result := result + [trimmed];
      }
    }
    assert parts[..|parts|] == parts;
  }

  function JoinNames(names: seq<string>): string {
    if names == [] then ""
    else if |names| == 1 then names[0]
    else names[0] + "," + JoinNames(names[1..])
  }

  predicate Proper(name: string) {
    Tight(name) && ',' !in name && ValidName(name)
  }

  lemma {:induction false} SplitJoined(names: seq<string>)
    requires names != [] && forall i :: 0 <= i < |names| ==> Proper(names[i])
    ensures Split(JoinNames(names)) == names
    decreases |names|
  {
    if |names| > 1 {
      SplitJoined(names[1..]);
      SplitFirst(names[0], JoinNames(names[1..]));
      assert names == [names[0]] + names[1..];
    }
  }

  lemma SplitFirst(a: string, b: string)
    requires ',' !in a
    ensures Split(a + "," + b) == [a] + Split(b)
  {
    var s := a + "," + b;
    assert s[|a|] == ',';
    var at := Comma(s);
    assert forall i :: 0 <= i < |a| ==> s[i] == a[i] != ',';
    assert forall i :: 0 <= i < at ==> s[..at][i] == s[i] != ',';
    assert s[..at] == a && s[at + 1..] == b;
  }

  lemma {:induction false} UsablesOfProper(names: seq<string>)
    requires forall i :: 0 <= i < |names| ==> Proper(names[i])
    ensures Usables(names) == names
  {
    if names != [] {
      var last := names[|names| - 1];
      UsablesOfProper(names[..|names| - 1]);
      TrimPads("", last, "");
      assert "" + last + "" == last;
    }
  }

  /** Any list of proper names survives being written as CYODA_PROFILES. */
  lemma ProfilesRoundTrip(names: seq<string>)
    requires forall i :: 0 <= i < |names| ==> Proper(names[i])
    ensures Profiles(JoinNames(names)) == names
  {
    if names != [] {
      SplitJoined(names);
      UsablesOfProper(names);
    }
  }

  // --- the files of a run ------------------------------------------------

  datatype Os = Linux | Windows | Darwin

  const APPDATA := "AppData"
  const XDG := "XDG_CONFIG_HOME"
  const PROGRAM_DATA := "ProgramData"
  const PROFILES := "CYODA_PROFILES"
  const HOME := "HOME"
  const USERPROFILE := "USERPROFILE"
  const SUFFIX := "/cyoda/cyoda.env"

  function Home(os: Os, env: Env): Option<string> {
    var h := Get(env, if os == Windows then USERPROFILE else HOME);
    if h == "" then None else Some(h)
  }

  function UserConfigPath(os: Os, env: Env): Option<string> {
    var explicit := Get(env, if os == Windows then APPDATA else XDG);
    if explicit != "" then Some(explicit + SUFFIX)
    else
      var h := Home(os, env);
      if h.None? then None
      else Some(h.value + (if os == Windows then "/AppData/Roaming" else "/.config") + SUFFIX)
  }

  function SystemConfigPaths(os: Os, env: Env): seq<string> {
    match os
    case Linux => ["/etc/cyoda/cyoda.env"]
    case Windows => if Get(env, PROGRAM_DATA) != "" then [Get(env, PROGRAM_DATA) + SUFFIX] else []
    case Darwin => []
  }

  function ProfileFiles(profiles: seq<string>): seq<string> {
    seq(|profiles|, i requires 0 <= i < |profiles| => ".env." + profiles[i])
  }

  function FilesOf(os: Os, env: Env): seq<string> {
    var user := UserConfigPath(os, env);
    SystemConfigPaths(os, env) + (if user.Some? then [user.value] else []) +
    [".env"] + ProfileFiles(Profiles(Get(env, PROFILES)))
  }

  /** The variables that decide which files are read. */
  const STEERING: set<string> := {PROFILES, APPDATA, XDG, PROGRAM_DATA, HOME, USERPROFILE}

  // --- the merge ---------------------------------------------------------

  function Lookup(env: Env, k: string): Option<string> {
    if k in env then Some(env[k]) else None
  }

  /** What the last readable file that defines `k` says. */
  function FromFiles(fs: Files, files: seq<string>, k: string): Option<string> {
    if files == [] then None
    else
      var f := files[|files| - 1];
      if f in fs && k in fs[f] then Some(fs[f][k]) else FromFiles(fs, files[..|files| - 1], k)
  }

  /** The shell's value where set, even if empty; else the last readable file's. */
  function Effective(os: Os, fs: Files, env: Env, k: string): Option<string> {
    if k in env then Some(env[k]) else FromFiles(fs, FilesOf(os, env), k)
  }

  method MergeFiles(fs: Files, files: seq<string>) returns (merged: Env)
    ensures forall k :: Lookup(merged, k) == FromFiles(fs, files, k)
  {
    merged := map[];
    for i := 0 to |files|
      invariant forall k :: Lookup(merged, k) == FromFiles(fs, files[..i], k)
    {
      assert files[..i + 1][..i] == files[..i];
      if files[i] in fs {
        merged := Override(merged, fs[files[i]]);
      }
    }
    assert files[..|files|] == files;
  }

  /** Copy every variable over, in whatever order the map yields them. */
  method Override(base: Env, vars: Env) returns (merged: Env)
    ensures forall k :: Lookup(merged, k) == if k in vars then Some(vars[k]) else Lookup(base, k)
  {
    merged := base;
    var rest := vars.Keys;
    while rest != {}
      invariant rest <= vars.Keys
      invariant forall k :: Lookup(merged, k) == if k in vars && k !in rest then Some(vars[k]) else Lookup(base, k)
      decreases rest
    {
      var k := AnyOf(rest);
      merged := merged[k := vars[k]];
      rest := rest - {k};
    }
  }

  /** LoadEnvFiles: afterwards every variable has its effective value. */
  method LoadEnvFiles(os: Os, fs: Files, env: Env) returns (env': Env)
    ensures forall k :: Lookup(env', k) == Effective(os, fs, env, k)
  {
    var merged := MergeFiles(fs, FilesOf(os, env));
    env' := env;
    var rest := merged.Keys;
    while rest != {}
      invariant rest <= merged.Keys
      invariant forall k :: Lookup(env', k) ==
                  if k in env then Some(env[k]) else if k in rest then None else Lookup(merged, k)
      decreases rest
    {
      var k := AnyOf(rest);
      if k !in env' {
        env' := env'[k := merged[k]];
      }
      rest := rest - {k};
    }
  }

  function Or(a: Option<string>, b: Option<string>): Option<string> {
    if a.Some? then a else b
  }

  lemma {:induction false} LaterFilesWin(fs: Files, a: seq<string>, b: seq<string>, k: string)
    ensures FromFiles(fs, a + b, k) == Or(FromFiles(fs, b, k), FromFiles(fs, a, k))
    decreases |b|
  {
    if b == [] {
      assert a + b == a;
    } else {
      LaterFilesWin(fs, a, b[..|b| - 1], k);
      assert (a + b)[..|a + b| - 1] == a + b[..|b| - 1];
    }
  }

  function UserFiles(os: Os, env: Env): seq<string> {
    if UserConfigPath(os, env).Some? then [UserConfigPath(os, env).value] else []
  }

  /** Where the shell says nothing, the profile files come first, then .env, then the
      user's file, then the system's. */
  lemma Precedence(os: Os, fs: Files, env: Env, k: string)
    requires k !in env
    ensures Effective(os, fs, env, k) ==
            Or(FromFiles(fs, ProfileFiles(Profiles(Get(env, PROFILES))), k),
               Or(FromFiles(fs, [".env"], k),
                  Or(FromFiles(fs, UserFiles(os, env), k),
                     FromFiles(fs, SystemConfigPaths(os, env), k))))
  {
    var system, user := SystemConfigPaths(os, env), UserFiles(os, env);
    var profiles := ProfileFiles(Profiles(Get(env, PROFILES)));
    LaterFilesWin(fs, system, user, k);
    LaterFilesWin(fs, system + user, [".env"], k);
    LaterFilesWin(fs, system + user + [".env"], profiles, k);
    assert FilesOf(os, env) == system + user + [".env"] + profiles;
  }

  // --- running it twice --------------------------------------------------

  ghost predicate Loaded(os: Os, fs: Files, env: Env, env': Env) {
    forall k :: Lookup(env', k) == Effective(os, fs, env, k)
  }

  predicate Defines(fs: Files, files: seq<string>, k: string) {
    exists i :: 0 <= i < |files| && files[i] in fs && k in fs[files[i]]
  }

  lemma {:induction false} FromFilesExactlyWhen(fs: Files, files: seq<string>, k: string)
    ensures FromFiles(fs, files, k).Some? <==> Defines(fs, files, k)
  {
    if files != [] {
      FromFilesExactlyWhen(fs, files[..|files| - 1], k);
    }
  }

  /** The steering variables as the first run leaves them. */
  function Steered(os: Os, fs: Files, env: Env): Env {
    map k | k in STEERING && Effective(os, fs, env, k).Some? :: Effective(os, fs, env, k).value
  }

  /** The files a second run would read. */
  function Reselected(os: Os, fs: Files, env: Env): seq<string> {
    FilesOf(os, Steered(os, fs, env))
  }

  lemma ReselectedAreRead(os: Os, fs: Files, env: Env, once: Env)
    requires Loaded(os, fs, env, once)
    ensures FilesOf(os, once) == Reselected(os, fs, env)
  {
    forall k | k in STEERING ensures Get(once, k) == Get(Steered(os, fs, env), k) {
      assert Lookup(once, k) == Effective(os, fs, env, k);
    }
    SameSelection(os, once, Steered(os, fs, env));
  }

  lemma SameSelection(os: Os, a: Env, b: Env)
    requires forall k :: k in STEERING ==> Get(a, k) == Get(b, k)
    ensures FilesOf(os, a) == FilesOf(os, b)
  {
    assert Get(a, PROFILES) == Get(b, PROFILES) && Get(a, APPDATA) == Get(b, APPDATA) && Get(a, XDG) == Get(b, XDG);
    assert Get(a, PROGRAM_DATA) == Get(b, PROGRAM_DATA) && Get(a, HOME) == Get(b, HOME);
    assert Get(a, USERPROFILE) == Get(b, USERPROFILE);
  }

  /** A second run changes nothing exactly when the files selected by then define only
      what the shell or the files of the first run set. */
  lemma SecondRunExactlyWhen(os: Os, fs: Files, env: Env, once: Env, twice: Env)
    requires Loaded(os, fs, env, once) && Loaded(os, fs, once, twice)
    ensures twice == once <==>
            forall k :: Defines(fs, Reselected(os, fs, env), k) ==> k in env || Defines(fs, FilesOf(os, env), k)
  {
    ReselectedAreRead(os, fs, env, once);
    forall k
      ensures k in once <==> k in env || Defines(fs, FilesOf(os, env), k)
      ensures Lookup(twice, k) == Lookup(once, k) <==> (Defines(fs, FilesOf(os, once), k) ==> k in once)
    {
      FromFilesExactlyWhen(fs, FilesOf(os, env), k);
      FromFilesExactlyWhen(fs, FilesOf(os, once), k);
      assert Lookup(once, k) == Effective(os, fs, env, k);
      assert Lookup(twice, k) == Effective(os, fs, once, k);
    }
    if forall k :: Defines(fs, FilesOf(os, once), k) ==> k in once {
      SameEnv(twice, once);
    }
  }

  lemma SameEnv(a: Env, b: Env)
    requires forall k :: Lookup(a, k) == Lookup(b, k)
    ensures a == b
  {
    forall k ensures (k in a <==> k in b) && (k in a ==> a[k] == b[k]) {
      assert Lookup(a, k) == Lookup(b, k);
    }
  }

  /** That is so whenever no file of the first run defined a steering variable the
      shell had left unset. */
  lemma SecondRunChangesNothing(os: Os, fs: Files, env: Env, once: Env, twice: Env)
    requires Loaded(os, fs, env, once) && Loaded(os, fs, once, twice)
    requires forall k :: k in STEERING && k !in env ==> !Defines(fs, FilesOf(os, env), k)
    ensures twice == once
  {
    forall k | k in STEERING ensures Get(Steered(os, fs, env), k) == Get(env, k) {
      FromFilesExactlyWhen(fs, FilesOf(os, env), k);
    }
    SameSelection(os, Steered(os, fs, env), env);
    SecondRunExactlyWhen(os, fs, env, once, twice);
  }

  /** And it can fail: a .env file that names a profile, whose file is read only by
      the second run. */
  lemma SecondRunCanChange()
    ensures
      var fs: Files := map[".env" := map[PROFILES := "x"], ".env.x" := map["A" := "1"]];
      var once: Env := map[PROFILES := "x"];
      Loaded(Darwin, fs, map[], once) && Defines(fs, Reselected(Darwin, fs, map[]), "A") && "A" !in once
  {
    var fs: Files := map[".env" := map[PROFILES := "x"], ".env.x" := map["A" := "1"]];
    var once: Env := map[PROFILES := "x"];
    OnlyDotEnv(fs, once);
    ReselectedAreRead(Darwin, fs, map[], once);
    ProfileIsRead(once);
    assert FilesOf(Darwin, once)[1] in fs && "A" in fs[FilesOf(Darwin, once)[1]];
  }

  lemma OnlyDotEnv(fs: Files, once: Env)
    requires ".env" in fs && fs[".env"] == once
    ensures Loaded(Darwin, fs, map[], once)
  {
    assert FilesOf(Darwin, map[]) == [".env"];
    assert [".env"][..0] == [];
    assert forall k :: FromFiles(fs, [".env"], k) == Lookup(once, k);
  }

  lemma ProfileIsRead(env: Env)
    requires env == map[PROFILES := "x"]
    ensures FilesOf(Darwin, env) == [".env", ".env.x"]
  {
    ProfilesRoundTrip(["x"]);
    assert JoinNames(["x"]) == "x";
    assert ".env." + "x" == ".env.x";
    assert ProfileFiles(["x"]) == [".env.x"];
    assert FilesOf(Darwin, env) == [] + [] + [".env"] + [".env.x"];
  }
}
