/**
 * src/utils.ts: the cache-key builder, the platform decision tables, the parsers
 * of the tool's standard output, and the memo that holds the tool's location.
 * The process environment, the action's inputs and the run context are passed in
 * as values; a command's standard output is given by an `exec` oracle.
 */
module Utils {
  import opened Wrappers
  import opened JsString

  /** The fixed first segment of every default cache key */
  const Namespace := "setup-ccache-action"

  /** The separator between key segments */
  const Delimiter := "_"

  /** The run context the default key is derived from */
  datatype Context = Context(
    workflow: string,   // Github.context.workflow
    job: string,        // Github.context.job
    imageOS: string,    // env.ImageOS
    actor: string,      // Github.context.actor
    headRef: string)    // env.GITHUB_HEAD_REF, empty outside pull requests

  /** IOverrideCacheKey */
  datatype OverrideCacheKey = OverrideCacheKey(isDefault: bool, value: string)

  // ---------------------------------------------------------------- key builder

  /** getDefaultCacheKeys: the segments, most general first; pull requests get a fifth */
  function DefaultCacheKeys(ctx: Context): (keys: seq<string>)
    ensures |keys| == if ctx.headRef != "" then 5 else 4
    ensures keys[..4] == [Namespace, ctx.workflow, ctx.job, ctx.imageOS]
    ensures ctx.headRef != "" ==> keys[4] == ctx.actor + "-" + ctx.headRef
  {
    var keys := [Namespace, ctx.workflow, ctx.job, ctx.imageOS];
    if |ctx.headRef| > 0 then keys + [ctx.actor + "-" + ctx.headRef] else keys
  }

  /** getOverrideCacheKey: a non-empty override is used as it is, else the segments are joined */
  function GetOverrideCacheKey(overrideInput: string, ctx: Context): (k: OverrideCacheKey)
    ensures k.isDefault <==> overrideInput == ""
    ensures !k.isDefault ==> k.value == overrideInput
    ensures k.isDefault ==> k.value == Join(DefaultCacheKeys(ctx), Delimiter)
    ensures k.value != ""
    ensures k.isDefault ==> k.value[..|Namespace| + 1] == Namespace + Delimiter
  {
    var segments := DefaultCacheKeys(ctx);
    assert segments == [segments[0]] + segments[1..];
    OverrideCacheKey(|overrideInput| == 0, if |overrideInput| > 0 then overrideInput else Join(segments, Delimiter))
  }

  /**
   * The `reduceRight` in getOverrideCacheKeyFallback: for each segment from the last to
   * the first, the join of the segments up to and including it.
   */
  function FallbackPrefixes(segments: seq<string>): (r: seq<string>)
    ensures |r| == |segments|
  {
    if segments == [] then []
    else [Join(segments, Delimiter)] + FallbackPrefixes(segments[..|segments| - 1])
  }

  /** getOverrideCacheKeyFallback: explicit list, else the override alone, else the prefixes */
  function GetOverrideCacheKeyFallback(fallbackInput: seq<string>, overrideInput: string, ctx: Context): (r: seq<string>)
    ensures fallbackInput != [] ==> r == fallbackInput
    ensures fallbackInput == [] && overrideInput != "" ==> r == [overrideInput]
    ensures fallbackInput == [] && overrideInput == "" ==> r == FallbackPrefixes(DefaultCacheKeys(ctx))
    ensures r != []
    ensures fallbackInput == [] ==> r[0] == GetOverrideCacheKey(overrideInput, ctx).value
  {
    if |fallbackInput| > 0 then fallbackInput
    else
      var cacheKey := GetOverrideCacheKey(overrideInput, ctx);
      if !cacheKey.isDefault then [cacheKey.value]
      else FallbackPrefixes(DefaultCacheKeys(ctx))
  }

  /** Entry i of the prefix list joins the first n - i segments */
  lemma {:induction false} FallbackPrefixesAt(segments: seq<string>, i: nat)
    requires i < |segments|
    ensures FallbackPrefixes(segments)[i] == Join(segments[..|segments| - i], Delimiter)
  {
    var n := |segments|;
    if i == 0 {
      assert segments[..n] == segments;
    } else {
      FallbackPrefixesAt(segments[..n - 1], i - 1);
      assert segments[..n - 1][..n - 1 - (i - 1)] == segments[..n - i];
    }
  }

  /** The join of the first k segments, a delimiter and the join of the rest is the whole join */
  lemma JoinSplitsAtSegment(segments: seq<string>, k: nat)
    requires 0 < k < |segments|
    ensures Join(segments, Delimiter)
         == Join(segments[..k], Delimiter) + Delimiter + Join(segments[k..], Delimiter)
  {
    assert segments == segments[..k] + segments[k..];
    JoinAppend(segments[..k], segments[k..], Delimiter);
  }

  /**
   * The default fallback list: one entry per segment, most specific first; the first entry
   * is the full join and the last the first segment alone; each entry is the next one
   * extended by a delimiter and one segment, so each is a prefix of the full join cut at a
   * delimiter, and the lengths strictly decrease.
   */
  lemma DefaultFallbackShape(segments: seq<string>)
    requires segments != []
    ensures var r := FallbackPrefixes(segments);
      && r[0] == Join(segments, Delimiter)
      && r[|r| - 1] == segments[0]
      && (forall i :: 0 <= i < |r| - 1 ==> r[i] == r[i + 1] + Delimiter + segments[|segments| - 1 - i])
      && (forall i :: 0 <= i < |r| - 1 ==> |r[i + 1]| < |r[i]|)
      && (forall i :: 0 <= i < |r| ==> r[i] <= Join(segments, Delimiter))
  {
    FallbackEnds(segments);
    FallbackStepsAll(segments);
    FallbackPrefixesAll(segments);
  }

  /** The prefix list starts with the full join and ends with the first segment */
  lemma FallbackEnds(segments: seq<string>)
    requires segments != []
    ensures var r := FallbackPrefixes(segments);
      r[0] == Join(segments, Delimiter) && r[|r| - 1] == segments[0]
  {
    FallbackPrefixesAt(segments, |segments| - 1);
    assert segments[..1] == [segments[0]];
  }

  /** Every entry but the last is the next one extended by a delimiter and one segment */
  lemma FallbackStepsAll(segments: seq<string>)
    ensures var r := FallbackPrefixes(segments);
      forall i :: 0 <= i < |r| - 1 ==> r[i] == r[i + 1] + Delimiter + segments[|segments| - 1 - i]
  {
    var r := FallbackPrefixes(segments);
    forall i | 0 <= i < |r| - 1
      ensures r[i] == r[i + 1] + Delimiter + segments[|segments| - 1 - i]
    {
      FallbackPrefixStep(segments, i);
    }
  }

  /** Every entry of the prefix list is a prefix of the full join */
  lemma FallbackPrefixesAll(segments: seq<string>)
    ensures var r := FallbackPrefixes(segments);
      forall i :: 0 <= i < |r| ==> r[i] <= Join(segments, Delimiter)
  {
    var r := FallbackPrefixes(segments);
    forall i | 0 <= i < |r|
      ensures r[i] <= Join(segments, Delimiter)
    {
      FallbackPrefixIsPrefix(segments, i);
    }
  }

  /** Entry i of the prefix list is entry i + 1 extended by a delimiter and one segment */
  lemma FallbackPrefixStep(segments: seq<string>, i: nat)
    requires i + 1 < |segments|
    ensures FallbackPrefixes(segments)[i]
         == FallbackPrefixes(segments)[i + 1] + Delimiter + segments[|segments| - 1 - i]
  {
    var k := |segments| - 1 - i;
    FallbackPrefixesAt(segments, i);
    FallbackPrefixesAt(segments, i + 1);
    assert |segments| - i == k + 1 && |segments| - (i + 1) == k;
    JoinSnoc(segments, k);
  }

  /** Joining one more segment adds a delimiter and that segment */
  lemma JoinSnoc(segments: seq<string>, k: nat)
    requires 0 < k < |segments|
    ensures Join(segments[..k + 1], Delimiter) == Join(segments[..k], Delimiter) + Delimiter + segments[k]
  {
    var front, last := segments[..k], [segments[k]];
    assert segments[..k + 1] == front + last;
    JoinAppend(front, last, Delimiter);
  }

  /** Every entry of the prefix list is a prefix of the full join */
  lemma FallbackPrefixIsPrefix(segments: seq<string>, i: nat)
    requires i < |segments|
    ensures FallbackPrefixes(segments)[i] <= Join(segments, Delimiter)
  {
    var n := |segments|;
    FallbackPrefixesAt(segments, i);
    var k := n - i;
    if k < n {
      JoinSplitsAtSegment(segments, k);
    } else {
      assert segments[..k] == segments;
    }
  }

  /**
   * With neither an override nor an explicit fallback list, restore keys run from the
   * primary key down to the namespace literal, each a shorter prefix of the primary key.
   */
  lemma DefaultRestoreKeys(ctx: Context)
    ensures var primary := GetOverrideCacheKey("", ctx).value;
      var r := GetOverrideCacheKeyFallback([], "", ctx);
      && |r| == |DefaultCacheKeys(ctx)|
      && r[0] == primary
      && r[|r| - 1] == Namespace
      && (forall i :: 0 <= i < |r| ==> r[i] <= primary)
      && (forall i :: 0 <= i < |r| - 1 ==> |r[i + 1]| < |r[i]|)
  {
    DefaultFallbackShape(DefaultCacheKeys(ctx));
  }

  /** Segments that are free of the delimiter determine the primary key and are recovered from it */
  lemma DefaultKeyDeterminesSegments(ctx1: Context, ctx2: Context)
    requires forall i :: 0 <= i < |DefaultCacheKeys(ctx1)| ==> '_' !in DefaultCacheKeys(ctx1)[i]
    requires forall i :: 0 <= i < |DefaultCacheKeys(ctx2)| ==> '_' !in DefaultCacheKeys(ctx2)[i]
    ensures Split(GetOverrideCacheKey("", ctx1).value, '_') == DefaultCacheKeys(ctx1)
    ensures GetOverrideCacheKey("", ctx1).value == GetOverrideCacheKey("", ctx2).value
        <==> DefaultCacheKeys(ctx1) == DefaultCacheKeys(ctx2)
  {
    SplitJoin(DefaultCacheKeys(ctx1), '_');
    if GetOverrideCacheKey("", ctx1).value == GetOverrideCacheKey("", ctx2).value {
      JoinInjective(DefaultCacheKeys(ctx1), DefaultCacheKeys(ctx2), '_');
    }
  }

  /** A push build of workflow "ci", job "build" on image "ubuntu22" */
  lemma PushBuildKeys(actor: string)
    ensures var ctx := Context("ci", "build", "ubuntu22", actor, "");
      && GetOverrideCacheKey("", ctx).value == "setup-ccache-action_ci_build_ubuntu22"
      && GetOverrideCacheKeyFallback([], "", ctx)
         == ["setup-ccache-action_ci_build_ubuntu22", "setup-ccache-action_ci_build",
             "setup-ccache-action_ci", "setup-ccache-action"]
  {
    var ctx := Context("ci", "build", "ubuntu22", actor, "");
    var segments := DefaultCacheKeys(ctx);
    assert segments == ["setup-ccache-action", "ci", "build", "ubuntu22"];
    var r := FallbackPrefixes(segments);
    JoinsOfFourSegments("setup-ccache-action", "ci", "build", "ubuntu22");
    FallbackPrefixesAt(segments, 0);
    FallbackPrefixesAt(segments, 1);
    FallbackPrefixesAt(segments, 2);
    FallbackPrefixesAt(segments, 3);
    assert segments[..4] == segments;
    assert segments[..3] == ["setup-ccache-action", "ci", "build"];
    assert segments[..2] == ["setup-ccache-action", "ci"];
    assert segments[..1] == ["setup-ccache-action"];
    assert r[0] == "setup-ccache-action_ci_build_ubuntu22";
    assert r[1] == "setup-ccache-action_ci_build";
    assert r[2] == "setup-ccache-action_ci";
    assert r[3] == "setup-ccache-action";
    assert |r| == 4;
  }

  /** The joins of the first one to four of four segments */
  lemma JoinsOfFourSegments(a: string, b: string, c: string, d: string)
    ensures Join([a], Delimiter) == a
    ensures Join([a, b], Delimiter) == a + Delimiter + b
    ensures Join([a, b, c], Delimiter) == a + Delimiter + b + Delimiter + c
    ensures Join([a, b, c, d], Delimiter) == a + Delimiter + b + Delimiter + c + Delimiter + d
  {
    assert [a, b][1..] == [b];
    assert [a, b, c][1..] == [b, c];
    assert [a, b, c, d][1..] == [b, c, d];
    assert [b, c][1..] == [c];
    assert [b, c, d][1..] == [c, d];
    assert [c, d][1..] == [d];
    assert Join([c, d], Delimiter) == c + Delimiter + d;
    assert Join([b, c, d], Delimiter) == b + Delimiter + (c + Delimiter + d);
    assert Join([a, b, c, d], Delimiter) == a + Delimiter + (b + Delimiter + (c + Delimiter + d));
    assert Join([b, c], Delimiter) == b + Delimiter + c;
    assert Join([a, b, c], Delimiter) == a + Delimiter + (b + Delimiter + c);
  }

  /**
   * A pull request build (one with a head ref): the primary key is the key of the same
   * build pushed, a delimiter and the actor-branch segment; the first fallback is that
   * primary key and the next one the key of the push build.
   */
  lemma PullRequestSegments(ctx: Context)
    requires ctx.headRef != ""
    ensures var push := Join([Namespace, ctx.workflow, ctx.job, ctx.imageOS], Delimiter);
      && GetOverrideCacheKey("", ctx).value == push + Delimiter + ctx.actor + "-" + ctx.headRef
      && GetOverrideCacheKeyFallback([], "", ctx)[0] == push + Delimiter + ctx.actor + "-" + ctx.headRef
      && GetOverrideCacheKeyFallback([], "", ctx)[1] == push
  {
    var segments := DefaultCacheKeys(ctx);
    var four := [Namespace, ctx.workflow, ctx.job, ctx.imageOS];
    assert segments == four + [ctx.actor + "-" + ctx.headRef];
    JoinAppend(four, [ctx.actor + "-" + ctx.headRef], Delimiter);
    FallbackPrefixesAt(segments, 0);
    FallbackPrefixesAt(segments, 1);
    assert segments[..4] == four;
    assert segments[..5] == segments;
  }

  // ---------------------------------------------------------------- platform tables

  /** isSupportedPlatform */
  predicate IsSupportedPlatform(platform: string, compileEnvironment: string) {
    || platform == "darwin" || platform == "linux"
    || (platform == "win32" && (compileEnvironment == "msvc" || compileEnvironment == "msys2"))
  }

  /** `command.replace(/"/g, '\\"')`: a backslash before every double quote */
  function EscapeQuotes(command: string): (r: string)
    ensures |r| >= |command|
    ensures r != [] ==> r[0] != '"'
    ensures forall i :: 0 <= i < |r| && r[i] == '"' ==> 0 < i && r[i - 1] == '\\'
  {
    if command == [] then []
    else
      var head := if command[0] == '"' then "\\\"" else [command[0]];
      var rest := EscapeQuotes(command[1..]);
      assert forall i :: |head| <= i < |head + rest| ==> (head + rest)[i] == rest[i - |head|];
      head + rest
  }

  /** What a POSIX shell makes of a backslash-quote inside double quotes */
  function UnescapeQuotes(s: string): string {
    if s == [] then []
    else if |s| >= 2 && s[0] == '\\' && s[1] == '"' then "\"" + UnescapeQuotes(s[2..])
    else [s[0]] + UnescapeQuotes(s[1..])
  }

  lemma {:induction false} UnescapeEscapeQuotes(command: string)
    ensures UnescapeQuotes(EscapeQuotes(command)) == command
  {
    if command != [] {
      var e := EscapeQuotes(command);
      var rest := EscapeQuotes(command[1..]);
      UnescapeEscapeQuotes(command[1..]);
      if command[0] == '"' {
        assert e[2..] == rest;
      } else {
        assert e[1..] == rest;
        assert command == [command[0]] + command[1..];
      }
    }
  }

  /** platformExecWrap */
  function PlatformExecWrap(platform: string, compileEnvironment: string, command: string): string {
    if platform == "darwin" || platform == "linux" then command
    else if platform == "win32" then
      if compileEnvironment == "msvc" then command
      else if compileEnvironment == "msys2" then "msys2 -c \"" + EscapeQuotes(command) + "\""
      else ""
    else ""
  }

  /**
   * A non-empty command is wrapped into a non-empty one exactly on supported platforms;
   * it is kept as it is on macOS, Linux and Windows with MSVC.
   */
  lemma PlatformExecWrapSupported(platform: string, compileEnvironment: string, command: string)
    requires command != ""
    ensures IsSupportedPlatform(platform, compileEnvironment)
        <==> PlatformExecWrap(platform, compileEnvironment, command) != ""
    ensures (platform == "darwin" || platform == "linux" || (platform == "win32" && compileEnvironment == "msvc"))
        ==> PlatformExecWrap(platform, compileEnvironment, command) == command
  {
  }

  /**
   * Under MSYS2 the command is handed to `msys2 -c "..."`; inside the quotes every double
   * quote is escaped, and undoing the escapes gives back the command.
   */
  lemma Msys2WrapRoundTrip(command: string)
    ensures var r := PlatformExecWrap("win32", "msys2", command);
      var inner := r[10..|r| - 1];
      && |r| >= 11
      && r[..10] == "msys2 -c \"" && r[|r| - 1] == '"'
      && (forall i :: 0 <= i < |inner| && inner[i] == '"' ==> 0 < i && inner[i - 1] == '\\')
      && UnescapeQuotes(inner) == command
  {
    var r := PlatformExecWrap("win32", "msys2", command);
    assert r[10..|r| - 1] == EscapeQuotes(command);
    UnescapeEscapeQuotes(command);
  }

  /** msysPackagePrefix */
  function MsysPackagePrefix(msystem: string): (r: string)
    ensures r == "" <==> msystem !in {"CLANG32", "CLANG64", "MINGW32", "MINGW64", "UCRT64"}
    ensures r != "" ==> |r| > 10 && r[..10] == "mingw-w64-" && r[|r| - 1] == '-'
  {
    if msystem == "CLANG32" then "mingw-w64-clang-i686-"
    else if msystem == "CLANG64" then "mingw-w64-clang-x86_64-"
    else if msystem == "MINGW32" then "mingw-w64-i686-"
    else if msystem == "MINGW64" then "mingw-w64-x86_64-"
    else if msystem == "UCRT64" then "mingw-w64-ucrt-x86_64-"
    else ""
  }

  /** sudoCommandWrap: the command, preceded by `sudo ` unless the user is root */
  function SudoCommandWrap(uid: int, command: string): (r: string)
    ensures |r| >= |command| && r[|r| - |command|..] == command
    ensures |r| == |command| <==> uid == 0
    ensures uid != 0 ==> |r| == |command| + 5 && r[..5] == "sudo "
  {
    (if uid != 0 then "sudo " else "") + command
  }

  // ---------------------------------------------------------------- standard output parsers

  /** The end of the line that starts at `p`: the first line terminator at or after `p`, or the end */
  function LineEnd(s: string, p: nat): (e: nat)
    requires p <= |s|
    ensures p <= e <= |s|
    ensures forall i :: p <= i < e ==> !IsLineTerminator(s[i])
    ensures e < |s| ==> IsLineTerminator(s[e])
    decreases |s| - p
  {
    if p == |s| || IsLineTerminator(s[p]) then p else LineEnd(s, p + 1)
  }

  const CacheDirLabel := "cache_dir = "

  /** `(?<=cache_dir = ).+` can match at `p` */
  predicate CacheDirMatchAt(s: string, p: int) {
    12 <= p < |s| && s[p - 12..p] == CacheDirLabel && !IsLineTerminator(s[p])
  }

  /** The leftmost match position at or after `from` */
  function FirstCacheDirMatch(s: string, from: nat): (r: Option<nat>)
    ensures r.Some? ==> from <= r.value && CacheDirMatchAt(s, r.value)
    ensures r.Some? ==> forall q :: from <= q < r.value ==> !CacheDirMatchAt(s, q)
    ensures r.None? ==> forall q :: from <= q ==> !CacheDirMatchAt(s, q)
    decreases |s| - from
  {
    if from >= |s| then None
    else if CacheDirMatchAt(s, from) then Some(from)
    else FirstCacheDirMatch(s, from + 1)
  }

  /**
   * The fallback of getCachePath on the output of `ccache -p`: the rest of the line after
   * the first `cache_dir = ` that is followed by something, trimmed; None where the
   * source's non-null assertion fails and a TypeError is thrown.
   */
  function ParseCacheDir(stdout: string): (r: Option<string>)
    ensures r.None? <==> forall p :: !CacheDirMatchAt(stdout, p)
    ensures r.Some? ==> exists p :: && CacheDirMatchAt(stdout, p)
                                    && (forall q :: 0 <= q < p ==> !CacheDirMatchAt(stdout, q))
                                    && r.value == Trim(stdout[p..LineEnd(stdout, p)])
  {
    match FirstCacheDirMatch(stdout, 0)
    case None => None
    case Some(p) => Some(Trim(stdout[p..LineEnd(stdout, p)]))
  }

  /**
   * Output in which the first `cache_dir = ` is followed by `dir` up to the end of its line
   * yields `dir`, trimmed. A line of `ccache -p` such as `(default) cache_dir = /d` is of
   * this shape, with `pre` the text up to the label.
   */
  lemma ParseCacheDirLine(pre: string, dir: string, tail: string)
    requires FirstLabelAtEnd(pre)
    requires dir != [] && forall i :: 0 <= i < |dir| ==> !IsLineTerminator(dir[i])
    requires tail == [] || IsLineTerminator(tail[0])
    ensures ParseCacheDir(pre + CacheDirLabel + dir + tail) == Some(Trim(dir))
  {
    var s := pre + CacheDirLabel + dir + tail;
    assert s == pre + CacheDirLabel + (dir + tail);
    CacheDirLineFound(pre, dir + tail);
    CacheDirLineEnd(pre, dir, tail);
  }

  /** A `cache_dir = ` ends at `q` */
  predicate LabelEndsAt(s: string, q: int) {
    12 <= q <= |s| && s[q - 12..q] == CacheDirLabel
  }

  /** No `cache_dir = ` ends before the one that follows `pre` */
  predicate FirstLabelAtEnd(pre: string) {
    forall q :: 12 <= q < |pre| + 12 ==> !LabelEndsAt(pre + CacheDirLabel, q)
  }

  /** The first match is right after the first label */
  lemma CacheDirLineFound(pre: string, after: string)
    requires FirstLabelAtEnd(pre)
    requires after != [] && !IsLineTerminator(after[0])
    ensures FirstCacheDirMatch(pre + CacheDirLabel + after, 0) == Some(|pre| + 12)
  {
    var s := pre + CacheDirLabel + after;
    MatchAfterLabel(pre, after);
    forall q | 0 <= q < |pre| + 12
      ensures !CacheDirMatchAt(s, q)
    {
      NoEarlierCacheDirMatch(pre, after, q);
    }
  }

  /** A label followed by something other than a line break is a match */
  lemma MatchAfterLabel(pre: string, after: string)
    requires after != [] && !IsLineTerminator(after[0])
    ensures CacheDirMatchAt(pre + CacheDirLabel + after, |pre| + 12)
  {
    var s := pre + CacheDirLabel + after;
    var p := |pre| + 12;
    assert s[p - 12..p] == CacheDirLabel;
    assert s[p] == after[0];
  }

  /** The matched line holds the directory and ends where it does */
  lemma CacheDirLineEnd(pre: string, dir: string, tail: string)
    requires forall i :: 0 <= i < |dir| ==> !IsLineTerminator(dir[i])
    requires tail == [] || IsLineTerminator(tail[0])
    ensures var s := pre + CacheDirLabel + dir + tail;
      var p := |pre| + 12;
      LineEnd(s, p) == p + |dir| && s[p..p + |dir|] == dir
  {
    var s := pre + CacheDirLabel + dir + tail;
    var p := |pre| + 12;
    assert forall i :: 0 <= i < |dir| ==> s[p + i] == dir[i];
    assert LineEnd(s, p) == p + |dir| by {
      if p + |dir| < |s| {
        assert s[p + |dir|] == tail[0];
      }
    }
    assert s[p..p + |dir|] == dir;
  }

  /** Before the first label there is no match */
  lemma NoEarlierCacheDirMatch(pre: string, after: string, q: int)
    requires FirstLabelAtEnd(pre)
    requires 0 <= q < |pre| + 12
    ensures !CacheDirMatchAt(pre + CacheDirLabel + after, q)
  {
    var s := pre + CacheDirLabel + after;
    if 12 <= q {
      assert !LabelEndsAt(pre + CacheDirLabel, q);
      assert s[q - 12..q] == (pre + CacheDirLabel)[q - 12..q];
    }
  }

  /** A `ccache -p` line with its origin in parentheses gives the directory */
  lemma ShowConfigLine(dir: string)
    requires dir != [] && forall i :: 0 <= i < |dir| ==> !IsLineTerminator(dir[i])
    ensures ParseCacheDir("(default) " + CacheDirLabel + dir + "\n") == Some(Trim(dir))
  {
    var pre := "(default) ";
    forall q | 12 <= q < |pre| + 12
      ensures !LabelEndsAt(pre + CacheDirLabel, q)
    {
      var j := 12 - (q - 10);
      assert (pre + CacheDirLabel)[q - 12..q][j] == CacheDirLabel[0];
    }
    ParseCacheDirLine(pre, dir, "\n");
  }

  /** getCachePath on the two outputs: `--get-config cache_dir` when it succeeds, else `-p` */
  function CachePath(getConfigExitCode: int, getConfigStdout: string, showConfigStdout: string): (r: Option<string>)
    ensures getConfigExitCode == 0 ==> r == Some(Trim(getConfigStdout))
    ensures getConfigExitCode != 0 ==> r == ParseCacheDir(showConfigStdout)
  {
    if getConfigExitCode == 0 then Some(Trim(getConfigStdout))
    else ParseCacheDir(showConfigStdout)
  }

  const VersionLabel := "version "

  predicate VersionMatchAt(s: string, p: int) {
    0 <= p && p + 8 <= |s| && s[p..p + 8] == VersionLabel
  }

  /** The leftmost position of `version ` at or after `from`; `(.*)` matches whatever follows */
  function FirstVersionMatch(s: string, from: nat): (r: Option<nat>)
    ensures r.Some? ==> from <= r.value && VersionMatchAt(s, r.value)
    ensures r.Some? ==> forall q :: from <= q < r.value ==> !VersionMatchAt(s, q)
    ensures r.None? ==> forall q :: from <= q ==> !VersionMatchAt(s, q)
    decreases |s| - from
  {
    if from + 8 > |s| then None
    else if VersionMatchAt(s, from) then Some(from)
    else FirstVersionMatch(s, from + 1)
  }

  /**
   * getCcacheVersion on the exit code and output of `ccache --version`: the rest of the
   * line after the first `version `, split at dots, element j read by `parseInt` with
   * radix j (that is what `map(parseInt)` passes); NaN is None.
   */
  function ParseCcacheVersion(exitCode: int, stdout: string): (r: seq<Option<int>>)
    ensures exitCode != 0 ==> r == []
    ensures exitCode == 0 ==> (r == [] <==> forall p :: !VersionMatchAt(stdout, p))
    ensures |r| >= 2 ==> r[1] == None
    ensures forall j :: 37 <= j < |r| ==> r[j] == None
  {
    if exitCode != 0 then []
    else
      match FirstVersionMatch(stdout, 0)
      case None => []
      case Some(p) =>
        var line := stdout[p + 8..LineEnd(stdout, p + 8)];
        var parts := Split(line, '.');
        seq(|parts|, j requires 0 <= j < |parts| => ParseInt(parts[j], j))
  }

  /**
   * On output such as `ccache version 4.8.2`, element 0 is the major version: the decimal
   * number right after the first `version `.
   */
  lemma CcacheVersionMajor(pre: string, major: string, rest: string)
    requires forall i :: 0 <= i < |pre| ==> pre[i] != 'v'
    requires major != [] && IsDecimal(major)
    requires rest == [] || rest[0] == '.' || rest[0] == ' ' || IsLineTerminator(rest[0])
    ensures var r := ParseCcacheVersion(0, pre + VersionLabel + major + rest);
      |r| >= 1 && r[0] == Some(DigitsValue(major, 10))
  {
    var tail := MajorLine(pre, major, rest);
    MajorPiece(major, tail);
  }

  /** The line after the first `version ` is the major version and what follows it there */
  lemma MajorLine(pre: string, major: string, rest: string) returns (tail: string)
    requires forall i :: 0 <= i < |pre| ==> pre[i] != 'v'
    requires IsDecimal(major)
    requires rest == [] || rest[0] == '.' || rest[0] == ' ' || IsLineTerminator(rest[0])
    ensures var s := pre + VersionLabel + major + rest;
      && FirstVersionMatch(s, 0) == Some(|pre|)
      && s[|pre| + 8..LineEnd(s, |pre| + 8)] == major + tail
    ensures tail == [] || tail[0] == '.' || tail[0] == ' '
  {
    var s := pre + VersionLabel + major + rest;
    assert s == pre + VersionLabel + (major + rest);
    FirstVersionLabel(pre, major + rest);
    var start := |pre| + 8;
    assert s[start..] == major + rest;
    LineStartsWithMajor(s, start, major, rest);
    var line := s[start..LineEnd(s, start)];
    tail := line[|major|..];
    assert line == major + tail;
  }

  /** The line that starts with the major version goes on, if at all, with a dot or a space */
  lemma LineStartsWithMajor(s: string, start: nat, major: string, rest: string)
    requires start <= |s| && s[start..] == major + rest
    requires IsDecimal(major)
    requires rest == [] || rest[0] == '.' || rest[0] == ' ' || IsLineTerminator(rest[0])
    ensures var line := s[start..LineEnd(s, start)];
      && |line| >= |major| && line[..|major|] == major
      && (|line| > |major| ==> line[|major|] == '.' || line[|major|] == ' ')
  {
    var e := LineEnd(s, start);
    assert forall i :: 0 <= i < |major| ==> s[start + i] == major[i];
    assert forall i :: 0 <= i < |major| ==> !IsLineTerminator(major[i]);
    assert e >= start + |major|;
    assert e > start + |major| ==> s[start + |major|] == rest[0];
  }

  /** `version ` after text without a `v` is found right there */
  lemma FirstVersionLabel(pre: string, after: string)
    requires forall i :: 0 <= i < |pre| ==> pre[i] != 'v'
    ensures FirstVersionMatch(pre + VersionLabel + after, 0) == Some(|pre|)
  {
    var s := pre + VersionLabel + after;
    var p := |pre|;
    assert s[p..p + 8] == VersionLabel;
    forall q | 0 <= q < p
      ensures !VersionMatchAt(s, q)
    {
      assert s[q] == pre[q];
      if q + 8 <= |s| {
        assert s[q..q + 8][0] == s[q];
      }
    }
    assert VersionMatchAt(s, p);
  }

  /** The first dot-separated piece of a line that starts with the major version reads as it */
  lemma MajorPiece(major: string, tail: string)
    requires major != [] && IsDecimal(major)
    requires tail == [] || tail[0] == '.' || tail[0] == ' '
    ensures ParseInt(Split(major + tail, '.')[0], 0) == Some(DigitsValue(major, 10))
  {
    var piece := MajorPieceShape(major, tail);
    ParseDecimalPrefix(major, piece, 0);
  }

  /** That piece is the major version followed by nothing or by a space and more */
  lemma MajorPieceShape(major: string, tail: string) returns (after: string)
    requires IsDecimal(major)
    requires tail == [] || tail[0] == '.' || tail[0] == ' '
    ensures Split(major + tail, '.')[0] == major + after
    ensures after == [] || after[0] == ' '
  {
    var line := major + tail;
    var dot := IndexOf(line, '.');
    SplitFirstPiece(line, '.');
    if dot < 0 {
      after := tail;
    } else {
      assert forall j :: 0 <= j < |major| ==> line[j] == major[j] != '.';
      after := line[|major|..dot];
      assert line[..dot] == major + after;
      assert after != [] ==> after[0] == tail[0];
    }
  }

  // ---------------------------------------------------------------- the tool's location

  /** The command getCcacheBinaryPath runs to find the tool, on each supported platform */
  function CcacheLookupCommand(platform: string, compileEnvironment: string): (r: Option<string>)
    ensures r.Some? <==> IsSupportedPlatform(platform, compileEnvironment)
  {
    if platform == "darwin" || platform == "linux" then Some("which ccache")
    else if platform == "win32" && compileEnvironment == "msvc" then Some("where ccache")
    else if platform == "win32" && compileEnvironment == "msys2" then
      Some(PlatformExecWrap(platform, compileEnvironment, "which ccache"))
    else None
  }

  /** The module-level `g_ccachePath` memo and getCcacheBinaryPath, which fills it */
  class CcacheBinaryPath {
    var path: string

    constructor ()
      ensures path == ""
    {
      path := "";
    }

    /**
     * Runs the platform's lookup command only while nothing non-empty is remembered;
     * an empty answer is not remembered, so the next call asks again.
     */
    method Get(platform: string, compileEnvironment: string, exec: string -> string) returns (p: string)
      modifies this
      ensures p == path
      ensures old(path) != "" ==> path == old(path)
      ensures old(path) == "" ==> path == match CcacheLookupCommand(platform, compileEnvironment)
                                          case Some(command) => Trim(exec(command))
                                          case None => ""
    {
      if |path| <= 0 {
        if platform == "darwin" || platform == "linux" {
          path := Trim(exec("which ccache"));
        } else if platform == "win32" {
          if compileEnvironment == "msvc" {
            path := Trim(exec("where ccache"));
          } else if compileEnvironment == "msys2" {
            path := Trim(exec(PlatformExecWrap(platform, compileEnvironment, "which ccache")));
          }
        }
      }
      p := path;
    }
  }

  /**
   * Two lookups in one run: once the first one has found the tool, the second returns the
   * same path whatever the lookup command would now print.
   */
  method LookupTwice(platform: string, compileEnvironment: string, exec1: string -> string, exec2: string -> string)
    returns (first: string, second: string)
    ensures first == match CcacheLookupCommand(platform, compileEnvironment)
                     case Some(command) => Trim(exec1(command))
                     case None => ""
    ensures first != "" ==> second == first
  {
    var memo := new CcacheBinaryPath();
    first := memo.Get(platform, compileEnvironment, exec1);
    second := memo.Get(platform, compileEnvironment, exec2);
  }
}
