/**
 * The native build script (syncthing/build-syncthing.py): it reads the minimum SDK level
 * from the app's Gradle file, locates the NDK, derives each target's C compiler from a
 * fixed target table, runs the Go build per target and moves each binary into the app's
 * jniLibs directory.
 */
module BuildScript {
  import opened Wrappers
  import opened Strings

  /** How the script stops early; each ends the process with exit status 1. */
  datatype Failure =
    | Fail(message: string)      // `fail()`: the message is printed, then `sys.exit(1)`
    | ValueError(text: string)   // `int()` of a token that is not an integer, not caught
    | FileNotFound(path: string) // opening or renaming a missing file, not caught

  // ---------------------------------------------------------------------------
  // Python `str.split()` and text-mode lines

  predicate IsSpace(c: char) {
    IsWhitespace(PythonSpace, c)
  }

  /** The leading run of non-whitespace characters of `t`. */
  function Word(t: string): (w: string)
    ensures |w| <= |t| && w == t[..|w|]
    ensures t != [] && !IsSpace(t[0]) ==> |w| >= 1
    ensures forall j :: 0 <= j < |w| ==> !IsSpace(w[j])
    ensures |w| == |t| || IsSpace(t[|w|])
  {
    if t == [] || IsSpace(t[0]) then [] else [t[0]] + Word(t[1..])
  }

  /** A non-empty run of non-whitespace characters. */
  predicate IsWord(w: string) {
    w != [] && forall j :: 0 <= j < |w| ==> !IsSpace(w[j])
  }

  /**
   * `str.split()` with no separator: the maximal runs of non-whitespace characters, in
   * order. None of them is empty, so the `filter(None, ...)` around it changes nothing.
   */
  function Tokens(s: string): seq<string>
    decreases |s|
  {
    if s == [] then []
    else if IsSpace(s[0]) then Tokens(s[1..])
    else
      var w := Word(s);
      [w] + Tokens(s[|w|..])
  }

  /** Every token is a non-empty run of non-whitespace characters. */
  lemma {:induction false} TokensAreWords(s: string)
    ensures forall i :: 0 <= i < |Tokens(s)| ==> IsWord(Tokens(s)[i])
    decreases |s|
  {
    if s != [] && IsSpace(s[0]) {
      TokensAreWords(s[1..]);
    } else if s != [] {
      var w := Word(s);
      var rest := Tokens(s[|w|..]);
      TokensAreWords(s[|w|..]);
      assert Tokens(s) == [w] + rest;
      forall i | 0 <= i < |Tokens(s)|
        ensures IsWord(Tokens(s)[i])
      {
        if i > 0 {
          assert Tokens(s)[i] == rest[i - 1];
        }
      }
    }
  }

  /** A word followed by nothing or by whitespace is read whole. */
  lemma {:induction false} WordOfWord(w: string, rest: string)
    requires forall j :: 0 <= j < |w| ==> !IsSpace(w[j])
    requires rest == [] || IsSpace(rest[0])
    ensures Word(w + rest) == w
  {
    if w != [] {
      assert (w + rest)[1..] == w[1..] + rest;
      WordOfWord(w[1..], rest);
    }
  }

  /** A word followed by nothing or by whitespace is the first token. */
  lemma FirstToken(w: string, rest: string)
    requires IsWord(w)
    requires rest == [] || IsSpace(rest[0])
    ensures Tokens(w + rest) == [w] + Tokens(rest)
  {
    WordOfWord(w, rest);
    assert (w + rest)[0] == w[0] && (w + rest)[|w|..] == rest;
  }

  /** Whitespace in front of the text does not change its tokens. */
  lemma {:induction false} LeadingSpace(sp: string, s: string)
    requires forall j :: 0 <= j < |sp| ==> IsSpace(sp[j])
    ensures Tokens(sp + s) == Tokens(s)
    decreases |sp|
  {
    if sp != [] {
      assert (sp + s)[0] == sp[0] && (sp + s)[1..] == sp[1..] + s;
      assert Tokens(sp + s) == Tokens((sp + s)[1..]);
      LeadingSpace(sp[1..], s);
    } else {
      assert sp + s == s;
    }
  }

  /** Words without whitespace, joined by single spaces, split back into the same words. */
  lemma {:induction false} TokensOfJoin(ws: seq<string>)
    requires forall i :: 0 <= i < |ws| ==> IsWord(ws[i])
    ensures Tokens(Join(ws, " ")) == ws
  {
    if ws != [] {
      var text := Join(ws, " ");
      if |ws| == 1 {
        WordOfWord(ws[0], []);
        assert ws[0] + [] == text;
        assert text[|ws[0]|..] == [];
      } else {
        var rest := Join(ws[1..], " ");
        assert text == ws[0] + (" " + rest);
        WordOfWord(ws[0], " " + rest);
        assert text[|ws[0]|..] == " " + rest;
        TokensOfJoin(ws[1..]);
        LeadingSpace(" ", rest);
      }
    }
  }

  /**
   * The lines of a file read in text mode: "\r\n" and a lone "\r" become "\n"
   * (universal newlines), then the text is cut after each "\n". The line break itself is
   * whitespace, so the tokens of a line do not depend on whether it is kept.
   */
  function TranslateNewlines(s: string): (r: string)
    ensures '\r' !in r
  {
    if s == [] then []
    else if s[0] == '\r' then
      if |s| > 1 && s[1] == '\n' then "\n" + TranslateNewlines(s[2..]) else "\n" + TranslateNewlines(s[1..])
    else [s[0]] + TranslateNewlines(s[1..])
  }

  function Lines(content: string): seq<string> {
    SplitAll(TranslateNewlines(content), '\n')
  }

  // ---------------------------------------------------------------------------
  // `os.path.join` on POSIX

  /**
   * `os.path.join(a, b)`: an absolute `b` replaces `a`; otherwise `b` is appended, after a
   * '/' unless `a` is empty or already ends with one.
   */
  function JoinPath(a: string, b: string): string {
    if IsAbsolute(b) then b
    else if a == [] || a[|a| - 1] == '/' then a + b
    else a + "/" + b
  }

  predicate IsAbsolute(p: string) {
    p != [] && p[0] == '/'
  }

  /** The joined path ends with the component joined on. */
  lemma JoinPathEndsWith(a: string, b: string)
    ensures EndsWith(JoinPath(a, b), b)
  {
    var r := JoinPath(a, b);
    assert r[|r| - |b|..] == b;
  }

  /** A relative, non-empty path component with no '/' at either end. */
  predicate PlainComponent(p: string) {
    p != [] && p[0] != '/' && p[|p| - 1] != '/'
  }

  /**
   * A plain component after a non-empty path that does not end in '/' is joined on with
   * exactly one '/', and the result again does not end in '/'. Joining several components
   * in one `os.path.join` call is joining them on one at a time.
   */
  lemma JoinPathPlain(a: string, b: string)
    requires a != [] && a[|a| - 1] != '/' && PlainComponent(b)
    ensures JoinPath(a, b) == a + "/" + b
    ensures var r := a + "/" + b; r != [] && r[|r| - 1] != '/'
  {
  }

  /** An absolute component discards everything in front of it. */
  lemma JoinPathAbsolute(a: string, b: string)
    requires IsAbsolute(b)
    ensures JoinPath(a, b) == b
  {
  }

  // ---------------------------------------------------------------------------
  // Python `int()` on one token

  /** Decimal digits with single underscores between them, as `int()` accepts them. */
  predicate DigitGroups(b: string) {
    |b| >= 1 && IsAsciiDigit(b[0]) && IsAsciiDigit(b[|b| - 1]) &&
    (forall i :: 0 <= i < |b| ==> IsAsciiDigit(b[i]) || b[i] == '_') &&
    (forall i :: 0 <= i < |b| - 1 && b[i] == '_' ==> IsAsciiDigit(b[i + 1]))
  }

  function WithoutUnderscores(b: string): (r: string)
    requires forall i :: 0 <= i < |b| ==> IsAsciiDigit(b[i]) || b[i] == '_'
    ensures AllDigits(r) && |r| <= |b|
  {
    if b == [] then []
    else if b[0] == '_' then WithoutUnderscores(b[1..])
    else [b[0]] + WithoutUnderscores(b[1..])
  }

  /**
   * `int(token)` for a token without whitespace: an optional sign, then digit groups. The
   * value is unbounded, and leading zeros are allowed.
   */
  function ParseInt(token: string): (r: Option<int>)
    ensures r.Some? ==> exists k :: 0 <= k < |token| && IsAsciiDigit(token[k])
  {
    var start := if |token| > 0 && (token[0] == '-' || token[0] == '+') then 1 else 0;
    var body := token[start..];
    if !DigitGroups(body) then None
    else
      assert IsAsciiDigit(token[start]) by { assert token[start] == body[0]; }
      var magnitude: int := DigitsValue(WithoutUnderscores(body));
      Some(if start == 1 && token[0] == '-' then -magnitude else magnitude)
  }

  lemma {:induction false} WithoutUnderscoresOfDigits(b: string)
    requires AllDigits(b)
    ensures WithoutUnderscores(b) == b
  {
    if b != [] {
      WithoutUnderscoresOfDigits(b[1..]);
    }
  }

  /** The decimal form of a number reads back as that number. */
  lemma ParseIntOfString(n: int)
    ensures ParseInt(IntToString(n)) == Some(n)
  {
    var text := IntToString(n);
    var magnitude: nat := if n < 0 then -n else n;
    var digits := NatToString(magnitude);
    var start := if n < 0 then 1 else 0;
    assert text[start..] == digits;
    assert start == 0 ==> text[0] != '-' && text[0] != '+';
    assert DigitGroups(digits);
    WithoutUnderscoresOfDigits(digits);
    NatToStringValue(magnitude);
    assert ParseInt(text) == Some(n);
  }

  // ---------------------------------------------------------------------------
  // get_min_sdk

  const MIN_SDK_NOT_FOUND: string := "Failed to find minSdkVersion"

  /** A line of exactly three tokens whose first is "minSdk". */
  predicate IsMinSdkLine(tokens: seq<string>) {
    |tokens| == 3 && tokens[0] == "minSdk"
  }

  /** The index of the first `minSdk` line, or the number of lines when there is none. */
  function FirstMinSdkLine(lines: seq<string>): (k: nat)
    ensures k <= |lines|
    ensures forall j :: 0 <= j < k ==> !IsMinSdkLine(Tokens(lines[j]))
    ensures k < |lines| ==> IsMinSdkLine(Tokens(lines[k]))
  {
    if lines == [] then 0
    else if IsMinSdkLine(Tokens(lines[0])) then 0
    else 1 + FirstMinSdkLine(lines[1..])
  }

  /** The app module's Gradle file. */
  function GradlePath(projectDir: string): string {
    JoinPath(JoinPath(projectDir, "app"), "build.gradle.kts")
  }

  /**
   * What `get_min_sdk` yields for the contents of app/build.gradle.kts (None: there is no
   * such file): the integer value of the third token of the first `minSdk` line. No such
   * line ends the script through `fail`; a third token that is not an integer raises
   * ValueError; a missing file raises FileNotFoundError.
   */
  function MinSdkOf(projectDir: string, gradleFile: Option<string>): Result<int, Failure> {
    match gradleFile
    case None => Err(FileNotFound(GradlePath(projectDir)))
    case Some(content) =>
      var lines := Lines(content);
      var k := FirstMinSdkLine(lines);
      if k == |lines| then Err(Fail(MIN_SDK_NOT_FOUND))
      else
        var third := Tokens(lines[k])[2];
        match ParseInt(third)
        case Some(v) => Ok(v)
        case None => Err(ValueError(third))
  }

  /** `get_min_sdk`, reading the file line by line and stopping at the first `minSdk` line. */
  method GetMinSdk(projectDir: string, gradleFile: Option<string>) returns (r: Result<int, Failure>)
    ensures r == MinSdkOf(projectDir, gradleFile)
  {
    if gradleFile.None? {
      return Err(FileNotFound(GradlePath(projectDir)));
    }
    var lines := Lines(gradleFile.value);
    ghost var k := FirstMinSdkLine(lines);
    for i := 0 to |lines|
      invariant forall j :: 0 <= j < i ==> !IsMinSdkLine(Tokens(lines[j]))
      invariant i <= k
    {
      var tokens := Tokens(lines[i]);
      if |tokens| == 3 && tokens[0] == "minSdk" {
        assert i == k;
        match ParseInt(tokens[2])
        case Some(v) => return Ok(v);
        case None => return Err(ValueError(tokens[2]));
      }
    }
    assert k == |lines|;
    return Err(Fail(MIN_SDK_NOT_FOUND));
  }

  /** The `minSdk` line that comes first decides, whatever follows it. */
  lemma {:induction false} FirstMinSdkLineAfter(before: seq<string>, line: string, after: seq<string>)
    requires forall j :: 0 <= j < |before| ==> !IsMinSdkLine(Tokens(before[j]))
    requires IsMinSdkLine(Tokens(line))
    ensures FirstMinSdkLine(before + [line] + after) == |before|
  {
    if before != [] {
      FirstMinSdkLineAfter(before[1..], line, after);
      assert (before + [line] + after)[1..] == before[1..] + [line] + after;
    }
  }

  lemma JoinThree(a: string, b: string, c: string)
    ensures Join([a, b, c], " ") == a + " " + b + " " + c
  {
    assert [a, b, c][1..] == [b, c];
    JoinTwo(b, c, " ");
  }

  lemma NumberIsWord(n: nat)
    ensures IsWord(NatToString(n))
  {
    var digits := NatToString(n);
    forall j | 0 <= j < |digits|
      ensures !IsSpace(digits[j])
    {
      assert IsAsciiDigit(digits[j]);
    }
  }

  /** An indented line "minSdk = n" is a `minSdk` line, and its third token reads as n. */
  lemma MinSdkLineValue(indent: string, n: nat)
    requires forall j :: 0 <= j < |indent| ==> indent[j] == ' '
    ensures var tokens := Tokens(indent + "minSdk = " + NatToString(n));
            IsMinSdkLine(tokens) && ParseInt(tokens[2]) == Some(n)
  {
    var digits := NatToString(n);
    var ws := ["minSdk", "=", digits];
    JoinThree("minSdk", "=", digits);
    assert indent + "minSdk = " + digits == indent + Join(ws, " ");
    NumberIsWord(n);
    TokensOfJoin(ws);
    LeadingSpace(indent, Join(ws, " "));
    ParseIntOfString(n);
  }

  /** Line 71 of app/build.gradle.kts, "minSdk = 23" under eight spaces of indentation, gives 23. */
  lemma GradleMinSdk()
    ensures var tokens := Tokens("        minSdk = 23");
            IsMinSdkLine(tokens) && ParseInt(tokens[2]) == Some(23)
  {
    MinSdkLineValue("        ", 23);
    assert "        minSdk = 23" == "        " + "minSdk = " + NatToString(23);
  }

  /**
   * Words after the value, such as a trailing "// comment", make the line have more than
   * three tokens, so it is not taken for the `minSdk` line.
   */
  lemma TrailingWordsIgnored(indent: string, n: nat, trailing: seq<string>)
    requires forall j :: 0 <= j < |indent| ==> indent[j] == ' '
    requires trailing != [] && forall i :: 0 <= i < |trailing| ==> IsWord(trailing[i])
    ensures !IsMinSdkLine(Tokens(indent + "minSdk = " + NatToString(n) + " " + Join(trailing, " ")))
  {
    var digits := NatToString(n);
    var ws := ["minSdk", "=", digits];
    JoinThree("minSdk", "=", digits);
    JoinAppend(ws, trailing, " ");
    assert "minSdk = " + digits == Join(ws, " ");
    assert indent + "minSdk = " + digits + " " + Join(trailing, " ") == indent + (Join(ws, " ") + " " + Join(trailing, " "));
    NumberIsWord(n);
    TokensOfJoin(ws + trailing);
    LeadingSpace(indent, Join(ws + trailing, " "));
  }

  /** A file whose first `minSdk` line is an indented "minSdk = n" gives n, whatever follows. */
  lemma MinSdkFromFile(projectDir: string, content: string, before: seq<string>, indent: string, n: nat, after: seq<string>)
    requires forall j :: 0 <= j < |indent| ==> indent[j] == ' '
    requires Lines(content) == before + [indent + "minSdk = " + NatToString(n)] + after
    requires forall j :: 0 <= j < |before| ==> !IsMinSdkLine(Tokens(before[j]))
    ensures MinSdkOf(projectDir, Some(content)) == Ok(n)
  {
    var line := indent + "minSdk = " + NatToString(n);
    MinSdkLineValue(indent, n);
    FirstMinSdkLineAfter(before, line, after);
    assert Lines(content)[|before|] == line;
  }

  /** A file without a `minSdk` line fails with "Failed to find minSdkVersion". */
  lemma MinSdkMissing(projectDir: string, content: string)
    requires forall j :: 0 <= j < |Lines(content)| ==> !IsMinSdkLine(Tokens(Lines(content)[j]))
    ensures MinSdkOf(projectDir, Some(content)) == Err(Fail(MIN_SDK_NOT_FOUND))
  {
  }

  // ---------------------------------------------------------------------------
  // Platforms

  /** The NDK's prebuilt-toolchain directory for each supported host system. */
  const PLATFORM_DIRS: map<string, string> :=
    map["Windows" := "windows-x86_64", "Linux" := "linux-x86_64", "Darwin" := "darwin-x86_64"]

  /** The keys of PLATFORM_DIRS in the order the table lists them. */
  const PLATFORMS: seq<string> := ["Windows", "Linux", "Darwin"]

  function UnsupportedPlatform(system: string): string {
    "Unsupported python platform " + system + ". Supported platforms: " + Join(PLATFORMS, ", ")
  }

  /**
   * The platform check at start-up: a host system outside the table ends the script; for
   * one inside it, its toolchain directory, a single relative path component.
   */
  function PlatformDir(system: string): (r: Result<string, Failure>)
    ensures r.Ok? <==> system in PLATFORMS
    ensures r.Ok? ==> PlainComponent(r.value) && r.value in PLATFORM_DIRS.Values
    ensures r.Err? ==> r.error == Fail(UnsupportedPlatform(system))
  {
    if system in PLATFORM_DIRS then Ok(PLATFORM_DIRS[system]) else Err(Fail(UnsupportedPlatform(system)))
  }

  /** The failure message lists the three systems, comma-separated, in table order. */
  lemma UnsupportedPlatformMessage(system: string)
    ensures UnsupportedPlatform(system) ==
              "Unsupported python platform " + system + ". Supported platforms: Windows, Linux, Darwin"
  {
    assert PLATFORMS[1..] == ["Linux", "Darwin"];
    JoinTwo("Linux", "Darwin", ", ");
  }

  // ---------------------------------------------------------------------------
  // Targets

  /** A `str.format` template with one "{}" field: the text before and after it. */
  datatype Template = Template(before: string, after: string)

  function Format(t: Template, arg: string): string {
    t.before + arg + t.after
  }

  datatype Target = Target(arch: string, goarch: string, jniDir: string, cc: Template)

  /** The four Android ABIs, in build order. */
  const BUILD_TARGETS: seq<Target> := [
    Target("arm", "arm", "armeabi", Template("armv7a-linux-androideabi", "-clang")),
    Target("arm64", "arm64", "arm64-v8a", Template("aarch64-linux-android", "-clang")),
    Target("x86", "386", "x86", Template("i686-linux-android", "-clang")),
    Target("x86_64", "amd64", "x86_64", Template("x86_64-linux-android", "-clang"))
  ]

  /** The names a target contributes to paths: single relative components. */
  predicate WellFormedTarget(t: Target) {
    PlainComponent(t.goarch) && PlainComponent(t.jniDir) &&
    t.cc.before != [] && t.cc.before[0] != '/' && t.cc.after != [] && t.cc.after[|t.cc.after| - 1] != '/'
  }

  /**
   * Every target is well formed, and no two targets share a Go architecture or a jniLibs
   * directory (whose names even differ in length).
   */
  lemma TargetsDistinct()
    ensures forall i :: 0 <= i < |BUILD_TARGETS| ==> WellFormedTarget(BUILD_TARGETS[i])
    ensures forall i, j :: 0 <= i < j < |BUILD_TARGETS| ==>
              BUILD_TARGETS[i].goarch != BUILD_TARGETS[j].goarch &&
              |BUILD_TARGETS[i].jniDir| != |BUILD_TARGETS[j].jniDir|
  {
    forall i | 0 <= i < |BUILD_TARGETS|
      ensures WellFormedTarget(BUILD_TARGETS[i])
    {
    }
    assert |BUILD_TARGETS[0].jniDir| == 7 && |BUILD_TARGETS[1].jniDir| == 9;
    assert |BUILD_TARGETS[2].jniDir| == 3 && |BUILD_TARGETS[3].jniDir| == 6;
  }

  // ---------------------------------------------------------------------------
  // get_ndk_home

  const NDK_MISSING: string := "ANDROID_NDK_HOME or NDK_VERSION and ANDROID_HOME environment variable must be defined"

  /** A variable Python finds truthy: present and not empty. */
  predicate IsSet(env: map<string, string>, name: string) {
    name in env && env[name] != []
  }

  /**
   * `get_ndk_home`: $ANDROID_HOME/ndk/$NDK_VERSION when both are set; otherwise the script
   * fails. The ANDROID_NDK_HOME and local.properties lookups sit inside a string literal,
   * so they never run.
   */
  function NdkHome(env: map<string, string>): (r: Result<string, Failure>)
    ensures r.Ok? <==> IsSet(env, "NDK_VERSION") && IsSet(env, "ANDROID_HOME")
    ensures r.Err? ==> r.error == Fail(NDK_MISSING)
  {
    if IsSet(env, "NDK_VERSION") && IsSet(env, "ANDROID_HOME") then
      Ok(JoinPath(JoinPath(env["ANDROID_HOME"], "ndk"), env["NDK_VERSION"]))
    else
      Err(Fail(NDK_MISSING))
  }

  /** With a plain version and an SDK path not ending in '/', the NDK is in the SDK's ndk directory. */
  lemma NdkHomePlain(env: map<string, string>)
    requires IsSet(env, "ANDROID_HOME") && env["ANDROID_HOME"][|env["ANDROID_HOME"]| - 1] != '/'
    requires "NDK_VERSION" in env && PlainComponent(env["NDK_VERSION"])
    ensures NdkHome(env) == Ok(env["ANDROID_HOME"] + "/" + "ndk" + "/" + env["NDK_VERSION"])
  {
    var home := env["ANDROID_HOME"];
    JoinPathPlain(home, "ndk");
    JoinPathPlain(home + "/" + "ndk", env["NDK_VERSION"]);
  }

  /** An absolute NDK_VERSION is the NDK directory itself. */
  lemma NdkHomeAbsoluteVersion(env: map<string, string>)
    requires IsSet(env, "ANDROID_HOME") && "NDK_VERSION" in env && IsAbsolute(env["NDK_VERSION"])
    ensures NdkHome(env) == Ok(env["NDK_VERSION"])
  {
    JoinPathAbsolute(JoinPath(env["ANDROID_HOME"], "ndk"), env["NDK_VERSION"]);
  }

  /** Setting ANDROID_NDK_HOME changes nothing. */
  lemma NdkHomeIgnoresAndroidNdkHome(env: map<string, string>, value: string)
    ensures NdkHome(env["ANDROID_NDK_HOME" := value]) == NdkHome(env)
  {
    var env' := env["ANDROID_NDK_HOME" := value];
    assert IsSet(env', "NDK_VERSION") == IsSet(env, "NDK_VERSION");
    assert IsSet(env', "ANDROID_HOME") == IsSet(env, "ANDROID_HOME");
  }

  // ---------------------------------------------------------------------------
  // Paths

  const SYNCTHING_SOURCE: string := "src/github.com/syncthing/syncthing"
  const JNI_LIBS: string := "app/src/main/jniLibs"
  const LIBRARY: string := "libsyncthing.so"

  function SyncthingDir(moduleDir: string): string {
    JoinPath(moduleDir, SYNCTHING_SOURCE)
  }

  function GoBuildDir(moduleDir: string): string {
    JoinPath(JoinPath(moduleDir, "gobuild"), "go-packages")
  }

  /** Where `go run build.go build` leaves the binary. */
  function BuiltBinary(moduleDir: string): string {
    JoinPath(SyncthingDir(moduleDir), "syncthing")
  }

  /** The clang of the target's ABI at the minimum SDK level, in the host's prebuilt toolchain. */
  function CompilerPath(ndkHome: string, platformDir: string, target: Target, minSdk: int): string {
    var prebuilt := JoinPath(JoinPath(JoinPath(ndkHome, "toolchains"), "llvm"), "prebuilt");
    JoinPath(JoinPath(JoinPath(prebuilt, platformDir), "bin"), Format(target.cc, IntToString(minSdk)))
  }

  function TargetDir(projectDir: string, target: Target): string {
    JoinPath(JoinPath(projectDir, JNI_LIBS), target.jniDir)
  }

  /** Where the target's library ends up. */
  function ArtifactPath(projectDir: string, target: Target): string {
    JoinPath(TargetDir(projectDir, target), LIBRARY)
  }

  /** A compiler path for an NDK directory not ending in '/' and a platform directory, written out. */
  lemma CompilerPathForm(ndkHome: string, platformDir: string, target: Target, minSdk: int)
    requires ndkHome != [] && ndkHome[|ndkHome| - 1] != '/'
    requires PlainComponent(platformDir) && WellFormedTarget(target)
    ensures CompilerPath(ndkHome, platformDir, target, minSdk) ==
              ndkHome + "/" + "toolchains" + "/" + "llvm" + "/" + "prebuilt" + "/" + platformDir + "/" + "bin" + "/" +
              Format(target.cc, IntToString(minSdk))
  {
    var cc := Format(target.cc, IntToString(minSdk));
    assert cc[0] == target.cc.before[0] && cc[|cc| - 1] == target.cc.after[|target.cc.after| - 1];
    var a1 := ndkHome + "/" + "toolchains";
    var a2 := a1 + "/" + "llvm";
    var a3 := a2 + "/" + "prebuilt";
    var a4 := a3 + "/" + platformDir;
    JoinPathPlain(ndkHome, "toolchains");
    JoinPathPlain(a1, "llvm");
    JoinPathPlain(a2, "prebuilt");
    JoinPathPlain(a3, platformDir);
    JoinPathPlain(a4, "bin");
    JoinPathPlain(a4 + "/" + "bin", cc);
  }

  /** The artifact path written out: the jniLibs directory, the ABI's directory, the library. */
  lemma ArtifactPathForm(projectDir: string, target: Target)
    requires PlainComponent(target.jniDir)
    ensures ArtifactPath(projectDir, target) == JoinPath(projectDir, JNI_LIBS) + "/" + target.jniDir + "/" + LIBRARY
  {
    var libs := JoinPath(projectDir, JNI_LIBS);
    assert libs[|libs| - 1] == 's' by {
      JoinPathEndsWith(projectDir, JNI_LIBS);
      assert libs[|libs| - 1] == libs[|libs| - |JNI_LIBS|..][|JNI_LIBS| - 1];
    }
    JoinPathPlain(libs, target.jniDir);
    JoinPathPlain(libs + "/" + target.jniDir, LIBRARY);
  }

  /** No two targets install to the same place. */
  lemma ArtifactsDistinct(projectDir: string)
    ensures forall i, j :: 0 <= i < j < |BUILD_TARGETS| ==>
              ArtifactPath(projectDir, BUILD_TARGETS[i]) != ArtifactPath(projectDir, BUILD_TARGETS[j])
  {
    TargetsDistinct();
    forall i, j | 0 <= i < j < |BUILD_TARGETS|
      ensures ArtifactPath(projectDir, BUILD_TARGETS[i]) != ArtifactPath(projectDir, BUILD_TARGETS[j])
    {
      ArtifactPathForm(projectDir, BUILD_TARGETS[i]);
      ArtifactPathForm(projectDir, BUILD_TARGETS[j]);
    }
  }

  /** The built binary is never an artifact: their names end differently. */
  lemma BuiltIsNotArtifact(moduleDir: string, projectDir: string, target: Target)
    ensures BuiltBinary(moduleDir) != ArtifactPath(projectDir, target)
  {
    var built, artifact := BuiltBinary(moduleDir), ArtifactPath(projectDir, target);
    assert built[|built| - 1] == 'g' by {
      JoinPathEndsWith(SyncthingDir(moduleDir), "syncthing");
      assert built[|built| - 1] == built[|built| - 9..][8];
    }
    assert artifact[|artifact| - 1] == 'o' by {
      JoinPathEndsWith(TargetDir(projectDir, target), LIBRARY);
      assert artifact[|artifact| - 1] == artifact[|artifact| - |LIBRARY|..][|LIBRARY| - 1];
    }
  }

  // ---------------------------------------------------------------------------
  // Commands

  /** A `subprocess.check_call`: the arguments, the working directory and the environment. */
  datatype Command = Command(args: seq<string>, cwd: Option<string>, env: Option<map<string, string>>)

  /** The build environment: a copy of the script's environment with Go modules and cgo turned on. */
  function GoEnvironment(env: map<string, string>): (e: map<string, string>)
    ensures e.Keys == env.Keys + {"GO111MODULE", "CGO_ENABLED"}
    ensures e["GO111MODULE"] == "on" && e["CGO_ENABLED"] == "1"
    ensures forall name :: name in env && name !in {"GO111MODULE", "CGO_ENABLED"} ==> e[name] == env[name]
  {
    env + map["GO111MODULE" := "on", "CGO_ENABLED" := "1"]
  }

  function FetchTags(syncthingDir: string): Command {
    Command(["git", "-C", syncthingDir, "fetch", "--tags"], None, None)
  }

  function GoVersion(syncthingDir: string, environ: map<string, string>): Command {
    Command(["go", "version"], Some(syncthingDir), Some(environ))
  }

  function BuildVersion(syncthingDir: string, environ: map<string, string>): Command {
    Command(["go", "run", "build.go", "version"], Some(syncthingDir), Some(environ))
  }

  /** What every target's build shares. */
  datatype Setup = Setup(syncthingDir: string, goBuildDir: string, environ: map<string, string>,
                         ndkHome: string, platformDir: string, minSdk: int)

  /** The Go build of one target: cross-compiled for Android with the target's clang. */
  function GoBuild(setup: Setup, target: Target): Command {
    Command(["go", "run", "build.go", "-goos", "android", "-goarch", target.goarch,
             "-cc", CompilerPath(setup.ndkHome, setup.platformDir, target, setup.minSdk),
             "-pkgdir", JoinPath(setup.goBuildDir, target.goarch), "-no-upgrade", "build"],
            Some(setup.syncthingDir), Some(setup.environ))
  }

  /** The build commands of the given targets, in order. */
  function Builds(setup: Setup, targets: seq<Target>): (bs: seq<Command>)
    ensures |bs| == |targets|
  {
    seq(|targets|, i requires 0 <= i < |targets| => GoBuild(setup, targets[i]))
  }

  /**
   * `log` followed, per build command, by the two checks that precede it and the build
   * itself.
   */
  function Rounds<T>(log: seq<T>, check: T, version: T, builds: seq<T>): (cs: seq<T>)
    ensures |cs| == |log| + 3 * |builds|
  {
    if builds == [] then log
    else
      var n := |builds| - 1;
      Rounds(log, check, version, builds[..n]) + [check] + [version] + [builds[n]]
  }

  /**
   * The command log after `log` once the given targets were built: per target, in order,
   * the two Go checks and the build.
   */
  function CommandLog(log: seq<Command>, setup: Setup, targets: seq<Target>): (cs: seq<Command>)
    ensures |cs| == |log| + 3 * |targets|
  {
    Rounds(log, GoVersion(setup.syncthingDir, setup.environ), BuildVersion(setup.syncthingDir, setup.environ),
           Builds(setup, targets))
  }

  /** Building one more target appends its two Go checks and its build to the log. */
  lemma CommandLogStep(log: seq<Command>, setup: Setup, targets: seq<Target>, i: nat)
    requires i < |targets|
    ensures CommandLog(log, setup, targets[..i + 1]) ==
              CommandLog(log, setup, targets[..i]) + [GoVersion(setup.syncthingDir, setup.environ)] +
                [BuildVersion(setup.syncthingDir, setup.environ)] + [GoBuild(setup, targets[i])]
  {
    var bs := Builds(setup, targets[..i + 1]);
    assert bs[..i] == Builds(setup, targets[..i]);
  }

  /** The log grows at its end: what was there is kept. */
  lemma {:induction false} RoundsKeeps<T>(log: seq<T>, check: T, version: T, builds: seq<T>)
    ensures Rounds(log, check, version, builds)[..|log|] == log
    decreases |builds|
  {
    if builds != [] {
      RoundsKeeps(log, check, version, builds[..|builds| - 1]);
    }
  }

  /** The i-th build comes right after its two checks, 3i entries after the old log. */
  lemma {:induction false} RoundsAt<T>(log: seq<T>, check: T, version: T, builds: seq<T>, i: nat)
    requires i < |builds|
    ensures var cs := Rounds(log, check, version, builds);
            cs[|log| + 3 * i] == check && cs[|log| + 3 * i + 1] == version && cs[|log| + 3 * i + 2] == builds[i]
    decreases |builds|
  {
    var n := |builds| - 1;
    if i < n {
      RoundsAt(log, check, version, builds[..n], i);
    }
  }

  /** The log of a build of all targets keeps the old log and holds every target's round. */
  lemma CommandLogAt(log: seq<Command>, setup: Setup, targets: seq<Target>, i: nat)
    requires i < |targets|
    ensures var cs := CommandLog(log, setup, targets);
            cs[..|log|] == log &&
            cs[|log| + 3 * i] == GoVersion(setup.syncthingDir, setup.environ) &&
            cs[|log| + 3 * i + 1] == BuildVersion(setup.syncthingDir, setup.environ) &&
            cs[|log| + 3 * i + 2] == GoBuild(setup, targets[i])
  {
    var check, version := GoVersion(setup.syncthingDir, setup.environ), BuildVersion(setup.syncthingDir, setup.environ);
    RoundsKeeps(log, check, version, Builds(setup, targets));
    RoundsAt(log, check, version, Builds(setup, targets), i);
  }

  // ---------------------------------------------------------------------------
  // Files

  /** The files of the host: path to contents. Directories are not modelled. */
  class Workspace {
    var files: map<string, string>
    /** Every command run so far, in order. */
    var commands: seq<Command>

    constructor (files: map<string, string>)
      ensures this.files == files && commands == []
    {
      this.files := files;
      commands := [];
    }

    /** A command that succeeds and changes no file. */
    method Call(c: Command)
      modifies this
      ensures commands == old(commands) + [c] && files == old(files)
    {
      commands := commands + [c];
    }

    /** A command that succeeds and writes `contents` to `output`. */
    method CallWriting(c: Command, output: string, contents: string)
      modifies this
      ensures commands == old(commands) + [c] && files == old(files)[output := contents]
    {
      commands := commands + [c];
      files := files[output := contents];
    }

    /**
     * The existing artifact is deleted, then the built file is renamed onto it. A missing
     * built file (which includes a built file that was itself the artifact) raises
     * FileNotFoundError after the deletion.
     */
    method ReplaceArtifact(built: string, artifact: string) returns (r: Result<(), Failure>)
      modifies this
      ensures r.Err? <==> built !in old(files) || built == artifact
      ensures r.Err? ==> r.error == FileNotFound(built) && files == old(files) - {artifact}
      ensures r.Ok? ==> files == (old(files) - {built})[artifact := old(files)[built]]
      ensures commands == old(commands)
    {
      if artifact in files {
        files := files - {artifact};
      }
      if built !in files {
        return Err(FileNotFound(built));
      }
      files := (files - {built})[artifact := files[built]];
      return Ok(());
    }
  }

  /**
   * The files after each built binary was moved onto its artifact, in order: every move
   * drops the built file and writes the artifact.
   */
  function Moved(files: map<string, string>, built: string, artifacts: seq<string>, binaries: seq<string>): map<string, string>
    requires |binaries| == |artifacts|
  {
    if artifacts == [] then files
    else
      var n := |artifacts| - 1;
      (Moved(files, built, artifacts[..n], binaries[..n]) - {built})[artifacts[n] := binaries[n]]
  }

  /** The artifact paths of the given targets, in order. */
  function Artifacts(projectDir: string, targets: seq<Target>): (paths: seq<string>)
    ensures |paths| == |targets|
  {
    seq(|targets|, i requires 0 <= i < |targets| => ArtifactPath(projectDir, targets[i]))
  }

  /** The files after a finished run over the given targets. */
  function Installed(files: map<string, string>, built: string, projectDir: string,
                     targets: seq<Target>, binaries: seq<string>): map<string, string>
    requires |binaries| == |targets|
  {
    Moved(files, built, Artifacts(projectDir, targets), binaries)
  }

  /** One more target removes the built file and puts its binary at its artifact path. */
  lemma InstalledStep(files: map<string, string>, built: string, projectDir: string,
                      targets: seq<Target>, binaries: seq<string>, i: nat)
    requires |binaries| == |targets| && i < |targets|
    ensures Installed(files, built, projectDir, targets[..i + 1], binaries[..i + 1]) ==
              (Installed(files, built, projectDir, targets[..i], binaries[..i]) - {built})[ArtifactPath(projectDir, targets[i]) := binaries[i]]
  {
    assert Artifacts(projectDir, targets[..i + 1])[..i] == Artifacts(projectDir, targets[..i]);
    assert binaries[..i + 1][..i] == binaries[..i];
  }

  /**
   * When no two artifacts coincide and none is the built file, each artifact holds its
   * binary, the built file is gone, and every other file is as it was.
   */
  lemma {:induction false} MovedFiles(files: map<string, string>, built: string, artifacts: seq<string>, binaries: seq<string>)
    requires |binaries| == |artifacts|
    requires forall i, j :: 0 <= i < j < |artifacts| ==> artifacts[i] != artifacts[j]
    requires built !in artifacts
    ensures var result := Moved(files, built, artifacts, binaries);
            forall i :: 0 <= i < |artifacts| ==> artifacts[i] in result && result[artifacts[i]] == binaries[i]
    ensures artifacts != [] ==> built !in Moved(files, built, artifacts, binaries)
    ensures var result := Moved(files, built, artifacts, binaries);
            forall f :: f in files && f != built && f !in artifacts ==> f in result && result[f] == files[f]
    decreases |artifacts|
  {
    if artifacts != [] {
      var n := |artifacts| - 1;
      MovedFiles(files, built, artifacts[..n], binaries[..n]);
      forall i | 0 <= i < n
        ensures artifacts[..n][i] == artifacts[i] && binaries[..n][i] == binaries[i]
      {
      }
    }
  }

  /**
   * When no two targets share an artifact and none is the built file, each artifact holds
   * the binary built for its target, the built file is gone, and every other file is as
   * it was.
   */
  lemma InstalledFiles(files: map<string, string>, built: string, projectDir: string,
                       targets: seq<Target>, binaries: seq<string>)
    requires |binaries| == |targets|
    requires forall i, j :: 0 <= i < j < |targets| ==> ArtifactPath(projectDir, targets[i]) != ArtifactPath(projectDir, targets[j])
    requires forall i :: 0 <= i < |targets| ==> ArtifactPath(projectDir, targets[i]) != built
    ensures var result := Installed(files, built, projectDir, targets, binaries);
            forall i :: 0 <= i < |targets| ==>
              ArtifactPath(projectDir, targets[i]) in result && result[ArtifactPath(projectDir, targets[i])] == binaries[i]
    ensures targets != [] ==> built !in Installed(files, built, projectDir, targets, binaries)
    ensures var result := Installed(files, built, projectDir, targets, binaries);
            forall f :: f in files && f != built && (forall i :: 0 <= i < |targets| ==> f != ArtifactPath(projectDir, targets[i])) ==>
              f in result && result[f] == files[f]
  {
    var artifacts := Artifacts(projectDir, targets);
    forall i | 0 <= i < |artifacts|
      ensures artifacts[i] != built && artifacts[i] == ArtifactPath(projectDir, targets[i])
    {
    }
    MovedFiles(files, built, artifacts, binaries);
    var result := Installed(files, built, projectDir, targets, binaries);
    forall i | 0 <= i < |targets|
      ensures ArtifactPath(projectDir, targets[i]) in result && result[ArtifactPath(projectDir, targets[i])] == binaries[i]
    {
    }
    forall f | f in files && f != built && (forall i :: 0 <= i < |targets| ==> f != ArtifactPath(projectDir, targets[i]))
      ensures f !in artifacts
    {
      forall i | 0 <= i < |artifacts|
        ensures artifacts[i] != f
      {
      }
    }
  }

  // ---------------------------------------------------------------------------
  // The script

  /** How `go version` ends. */
  datatype GoCheck = GoFound | GoFailed | GoNotFound

  const GO_FAILED: string := "ERROR: Something went wrong with go!"
  const GO_NOT_FOUND: string := "\n==============================\n\tGO NOT FOUND!\n==============================\n"

  /** The message `fail` prints when `go version` does not succeed. */
  function GoCheckFailure(check: GoCheck): Failure
    requires check != GoFound
  {
    if check == GoFailed then Fail(GO_FAILED) else Fail(GO_NOT_FOUND)
  }

  /**
   * One target's build and install: the Go build writes the binary, which is then moved
   * onto the target's artifact.
   */
  method InstallTarget(ws: Workspace, build: Command, built: string, artifact: string, binary: string)
    requires built != artifact
    modifies ws
    ensures ws.commands == old(ws.commands) + [build]
    ensures ws.files == (old(ws.files) - {built})[artifact := binary]
  {
    ws.CallWriting(build, built, binary);
    ghost var written := ws.files;
    var moved := ws.ReplaceArtifact(built, artifact);
    assert moved.Ok?;
    assert written - {built} == old(ws.files) - {built};
  }

  /** The shared build settings once the NDK was found. */
  function SetupOf(env: map<string, string>, syncthingDir: string, goBuildDir: string, platformDir: string, minSdk: int): Setup
    requires NdkHome(env).Ok?
  {
    Setup(syncthingDir, goBuildDir, GoEnvironment(env), NdkHome(env).value, platformDir, minSdk)
  }

  /**
   * One round of the loop: the Go checks, the NDK lookup, the build and the install of
   * one target.
   */
  method BuildTarget(ws: Workspace, env: map<string, string>, goCheck: GoCheck,
                     syncthingDir: string, goBuildDir: string, platformDir: string, minSdk: int,
                     built: string, artifact: string, target: Target, binary: string)
    returns (r: Result<(), Failure>)
    requires artifact != built
    modifies ws
    ensures goCheck != GoFound ==>
              r == Err(GoCheckFailure(goCheck)) && ws.files == old(ws.files) &&
              ws.commands == old(ws.commands) + [GoVersion(syncthingDir, GoEnvironment(env))]
    ensures goCheck == GoFound && NdkHome(env).Err? ==>
              r == Err(NdkHome(env).error) && ws.files == old(ws.files) &&
              ws.commands == old(ws.commands) + [GoVersion(syncthingDir, GoEnvironment(env)), BuildVersion(syncthingDir, GoEnvironment(env))]
    ensures goCheck == GoFound && NdkHome(env).Ok? ==>
              r == Ok(()) &&
              ws.commands == old(ws.commands) + [GoVersion(syncthingDir, GoEnvironment(env))] +
                [BuildVersion(syncthingDir, GoEnvironment(env))] +
                [GoBuild(SetupOf(env, syncthingDir, goBuildDir, platformDir, minSdk), target)] &&
              ws.files == (old(ws.files) - {built})[artifact := binary]
  {
    var environ := GoEnvironment(env);
    ws.Call(GoVersion(syncthingDir, environ));
    if goCheck != GoFound {
      return Err(GoCheckFailure(goCheck));
    }
    ws.Call(BuildVersion(syncthingDir, environ));
    var ndkHome := NdkHome(env);
    if ndkHome.Err? {
      return Err(ndkHome.error);
    }
    var setup := Setup(syncthingDir, goBuildDir, environ, ndkHome.value, platformDir, minSdk);
    InstallTarget(ws, GoBuild(setup, target), built, artifact, binary);
    return Ok(());
  }

  /**
   * The loop over the targets. `goCheck` is how `go version` ends and `binaries[i]` what
   * the i-th build produces; every other command succeeds. The NDK is looked up in the
   * first round, so a missing NDK stops the script before any build.
   */
  method BuildTargets(ws: Workspace, env: map<string, string>, goCheck: GoCheck,
                      syncthingDir: string, goBuildDir: string, platformDir: string, minSdk: int,
                      built: string, projectDir: string, targets: seq<Target>, binaries: seq<string>)
    returns (r: Result<(), Failure>)
    requires targets != [] && |binaries| == |targets|
    requires forall i :: 0 <= i < |targets| ==> ArtifactPath(projectDir, targets[i]) != built
    modifies ws
    ensures goCheck != GoFound ==>
              r == Err(GoCheckFailure(goCheck)) && ws.files == old(ws.files) &&
              ws.commands == old(ws.commands) + [GoVersion(syncthingDir, GoEnvironment(env))]
    ensures goCheck == GoFound && NdkHome(env).Err? ==>
              r == Err(NdkHome(env).error) && ws.files == old(ws.files) &&
              ws.commands == old(ws.commands) + [GoVersion(syncthingDir, GoEnvironment(env)), BuildVersion(syncthingDir, GoEnvironment(env))]
    ensures goCheck == GoFound && NdkHome(env).Ok? ==>
              r == Ok(()) &&
              ws.commands == CommandLog(old(ws.commands), SetupOf(env, syncthingDir, goBuildDir, platformDir, minSdk), targets) &&
              ws.files == Installed(old(ws.files), built, projectDir, targets, binaries)
  {
    for i := 0 to |targets|
      invariant ws.files == Installed(old(ws.files), built, projectDir, targets[..i], binaries[..i])
      invariant i == 0 ==> ws.commands == old(ws.commands)
      invariant i > 0 ==> goCheck == GoFound && NdkHome(env).Ok? &&
                          ws.commands == CommandLog(old(ws.commands), SetupOf(env, syncthingDir, goBuildDir, platformDir, minSdk), targets[..i])
    {
      r := BuildTarget(ws, env, goCheck, syncthingDir, goBuildDir, platformDir, minSdk,
                       built, ArtifactPath(projectDir, targets[i]), targets[i], binaries[i]);
      if r.Err? {
        return;
      }
      InstalledStep(old(ws.files), built, projectDir, targets, binaries, i);
      CommandLogStep(old(ws.commands), SetupOf(env, syncthingDir, goBuildDir, platformDir, minSdk), targets, i);
    }
    assert targets[..|targets|] == targets;
    assert binaries[..|targets|] == binaries;
    return Ok(());
  }

  /**
   * The whole script on the host's files: the platform check, the minimum SDK level, the
   * tag fetch, then the targets in table order.
   */
  method BuildSyncthing(ws: Workspace, system: string, env: map<string, string>, moduleDir: string, projectDir: string,
                        gradleFile: Option<string>, goCheck: GoCheck, binaries: seq<string>)
    returns (r: Result<(), Failure>)
    requires |binaries| == |BUILD_TARGETS|
    modifies ws
    ensures PlatformDir(system).Err? ==>
              r == Err(PlatformDir(system).error) && ws.files == old(ws.files) && ws.commands == old(ws.commands)
    ensures PlatformDir(system).Ok? && MinSdkOf(projectDir, gradleFile).Err? ==>
              r == Err(MinSdkOf(projectDir, gradleFile).error) && ws.files == old(ws.files) && ws.commands == old(ws.commands)
    ensures PlatformDir(system).Ok? && MinSdkOf(projectDir, gradleFile).Ok? && goCheck != GoFound ==>
              r == Err(GoCheckFailure(goCheck)) && ws.files == old(ws.files) &&
              ws.commands == old(ws.commands) + [FetchTags(SyncthingDir(moduleDir)), GoVersion(SyncthingDir(moduleDir), GoEnvironment(env))]
    ensures PlatformDir(system).Ok? && MinSdkOf(projectDir, gradleFile).Ok? && goCheck == GoFound && NdkHome(env).Err? ==>
              r == Err(NdkHome(env).error) && ws.files == old(ws.files) &&
              ws.commands == old(ws.commands) + [FetchTags(SyncthingDir(moduleDir)),
                                                 GoVersion(SyncthingDir(moduleDir), GoEnvironment(env)),
                                                 BuildVersion(SyncthingDir(moduleDir), GoEnvironment(env))]
    ensures PlatformDir(system).Ok? && MinSdkOf(projectDir, gradleFile).Ok? && goCheck == GoFound && NdkHome(env).Ok? ==>
              var setup := SetupOf(env, SyncthingDir(moduleDir), GoBuildDir(moduleDir),
                                   PlatformDir(system).value, MinSdkOf(projectDir, gradleFile).value);
              r == Ok(()) &&
              ws.commands == CommandLog(old(ws.commands) + [FetchTags(SyncthingDir(moduleDir))], setup, BUILD_TARGETS) &&
              ws.files == Installed(old(ws.files), BuiltBinary(moduleDir), projectDir, BUILD_TARGETS, binaries)
  {
    var platformDir := PlatformDir(system);
    if platformDir.Err? {
      return Err(platformDir.error);
    }
    var minSdk := GetMinSdk(projectDir, gradleFile);
    if minSdk.Err? {
      return Err(minSdk.error);
    }
    r := FetchAndBuild(ws, env, goCheck, moduleDir, projectDir, platformDir.value, minSdk.value, BUILD_TARGETS, binaries);
  }

  /** The tags are fetched into the syncthing checkout, then the targets are built in order. */
  method FetchAndBuild(ws: Workspace, env: map<string, string>, goCheck: GoCheck, moduleDir: string, projectDir: string,
                       platformDir: string, minSdk: int, targets: seq<Target>, binaries: seq<string>)
    returns (r: Result<(), Failure>)
    requires targets != [] && |binaries| == |targets|
    modifies ws
    ensures goCheck != GoFound ==>
              r == Err(GoCheckFailure(goCheck)) && ws.files == old(ws.files) &&
              ws.commands == old(ws.commands) + [FetchTags(SyncthingDir(moduleDir)), GoVersion(SyncthingDir(moduleDir), GoEnvironment(env))]
    ensures goCheck == GoFound && NdkHome(env).Err? ==>
              r == Err(NdkHome(env).error) && ws.files == old(ws.files) &&
              ws.commands == old(ws.commands) + [FetchTags(SyncthingDir(moduleDir)),
                                                 GoVersion(SyncthingDir(moduleDir), GoEnvironment(env)),
                                                 BuildVersion(SyncthingDir(moduleDir), GoEnvironment(env))]
    ensures goCheck == GoFound && NdkHome(env).Ok? ==>
              var setup := SetupOf(env, SyncthingDir(moduleDir), GoBuildDir(moduleDir), platformDir, minSdk);
              r == Ok(()) &&
              ws.commands == CommandLog(old(ws.commands) + [FetchTags(SyncthingDir(moduleDir))], setup, targets) &&
              ws.files == Installed(old(ws.files), BuiltBinary(moduleDir), projectDir, targets, binaries)
  {
    var syncthingDir := SyncthingDir(moduleDir);
    ws.Call(FetchTags(syncthingDir));
    BuiltIsNoArtifact(moduleDir, projectDir, targets);
    r := BuildTargets(ws, env, goCheck, syncthingDir, GoBuildDir(moduleDir), platformDir, minSdk,
                      BuiltBinary(moduleDir), projectDir, targets, binaries);
  }

  lemma BuiltIsNoArtifact(moduleDir: string, projectDir: string, targets: seq<Target>)
    ensures forall i :: 0 <= i < |targets| ==> ArtifactPath(projectDir, targets[i]) != BuiltBinary(moduleDir)
  {
    forall i | 0 <= i < |targets|
      ensures ArtifactPath(projectDir, targets[i]) != BuiltBinary(moduleDir)
    {
      BuiltIsNotArtifact(moduleDir, projectDir, targets[i]);
    }
  }

  /**
   * After a run that finished, each target's jniLibs directory holds the library built
   * for it, the built binary is gone, and every unrelated file is as it was.
   */
  lemma EveryTargetInstalled(files: map<string, string>, moduleDir: string, projectDir: string, binaries: seq<string>)
    requires |binaries| == |BUILD_TARGETS|
    ensures var result := Installed(files, BuiltBinary(moduleDir), projectDir, BUILD_TARGETS, binaries);
            BuiltBinary(moduleDir) !in result &&
            forall i :: 0 <= i < |BUILD_TARGETS| ==>
              ArtifactPath(projectDir, BUILD_TARGETS[i]) in result && result[ArtifactPath(projectDir, BUILD_TARGETS[i])] == binaries[i]
  {
    ArtifactsDistinct(projectDir);
    BuiltIsNoArtifact(moduleDir, projectDir, BUILD_TARGETS);
    InstalledFiles(files, BuiltBinary(moduleDir), projectDir, BUILD_TARGETS, binaries);
  }
}
