/**
 * src/main.ts: the setup step of the action. It checks that ccache can be found, restores
 * the cache, publishes `cache_hit`, writes the ccache configuration from the
 * `ccache_options` lines and clears the statistics, in a fixed order, and stops at the
 * first step that throws. Subprocesses, `which`, the cache service and `getCachePath` are
 * outcomes supplied by the caller.
 */
module Setup {
  import opened Wrappers
  import opened JsString
  import Utils

  // ---------------------------------------------------------------- ccache_options

  /**
   * `setting.split("=", 2)` when it has two elements: the text before the first `=` and the
   * text between the first and the second `=`; None for a line without `=`.
   */
  function SplitSetting(setting: string): (r: Option<(string, string)>)
    ensures r.None? <==> '=' !in setting
    ensures r.Some? ==> '=' !in r.value.0 && '=' !in r.value.1
    ensures r.Some? ==> r.value.0 + "=" + r.value.1 <= setting
  {
    var pieces := Split(setting, '=');
    if |pieces| >= 2 then
      assert setting == pieces[0] + "=" + Join(pieces[1..], "=");
      assert pieces[1..][0] == pieces[1];
      Some((pieces[0], pieces[1]))
    else None
  }

  /** A line with exactly one `=` splits into the text on either side of it */
  lemma SplitSettingExact(key: string, value: string)
    requires '=' !in key && '=' !in value
    ensures SplitSetting(key + "=" + value) == Some((key, value))
  {
    assert Join([key, value], "=") == key + "=" + value;
    SplitJoin([key, value], '=');
  }

  /** `split("=", 2)` truncates: whatever follows a second `=` is dropped */
  lemma SplitSettingTruncates(key: string, value: string, rest: string)
    requires '=' !in key && '=' !in value
    ensures SplitSetting(key + "=" + value + "=" + rest) == Some((key, value))
  {
    var s := key + "=" + value + "=" + rest;
    assert s[|key|] == '=';
    assert forall k :: 0 <= k < |key| ==> s[k] == key[k];
    assert IndexOf(s, '=') == |key|;
    var after := s[|key| + 1..];
    assert s[..|key|] == key;
    assert after == value + "=" + rest;
    assert after[|value|] == '=';
    assert forall k :: 0 <= k < |value| ==> after[k] == value[k];
    assert IndexOf(after, '=') == |value|;
    assert after[..|value|] == value;
    SplitFirstPiece(after, '=');
  }

  const SetConfigPrefix := "ccache --set-config \""

  /**
   * The command for one `ccache_options` line: `ccache --set-config "<key>=<value>"` with
   * both sides trimmed; a line without `=` gives no command. The quoted setting holds
   * exactly one `=`.
   */
  function SettingCommand(setting: string): (r: Option<string>)
    ensures r.None? <==> '=' !in setting
    ensures r.Some? ==>
      && |r.value| > |SetConfigPrefix| && r.value[..|SetConfigPrefix|] == SetConfigPrefix
      && r.value[|r.value| - 1] == '"'
      && multiset(r.value[|SetConfigPrefix|..|r.value| - 1])['='] == 1
  {
    match SplitSetting(setting)
    case None => None
    case Some((key, value)) =>
      var k, v := Trim(key), Trim(value);
      TrimKeepsAbsent(key, '=');
      TrimKeepsAbsent(value, '=');
      var command := SetConfigPrefix + k + "=" + v + "\"";
      QuotedSetting(k, v);
      Some(command)
  }

  /** The command quoting `k=v`: between the prefix and the closing quote there is exactly one `=` */
  lemma QuotedSetting(k: string, v: string)
    requires '=' !in k && '=' !in v
    ensures var command := SetConfigPrefix + k + "=" + v + "\"";
      && command[..|SetConfigPrefix|] == SetConfigPrefix
      && command[|command| - 1] == '"'
      && multiset(command[|SetConfigPrefix|..|command| - 1])['='] == 1
  {
    var inner := k + "=" + v;
    var command := SetConfigPrefix + k + "=" + v + "\"";
    assert command == SetConfigPrefix + inner + "\"";
    assert command[|SetConfigPrefix|..|command| - 1] == inner;
    assert multiset(k)['='] == 0 && multiset(v)['='] == 0;
    assert multiset(inner) == multiset(k) + multiset("=") + multiset(v);
  }

  /** The commands of the lines that have one, in line order */
  function CollectCommands(lines: seq<string>, commandOf: string -> Option<string>): seq<string> {
    if lines == [] then []
    else
      var last := commandOf(lines[|lines| - 1]);
      CollectCommands(lines[..|lines| - 1], commandOf) + (if last.Some? then [last.value] else [])
  }

  /** Each line contributes its own command, or none, in place: the commands of a + b are those of a, then of b */
  lemma {:induction false} CollectCommandsAppend(a: seq<string>, b: seq<string>, commandOf: string -> Option<string>)
    ensures CollectCommands(a + b, commandOf) == CollectCommands(a, commandOf) + CollectCommands(b, commandOf)
    decreases |b|
  {
    if b == [] {
      assert a + b == a;
    } else {
      var init, last := b[..|b| - 1], b[|b| - 1];
      assert (a + b)[..|a + b| - 1] == a + init;
      assert (a + b)[|a + b| - 1] == last;
      CollectCommandsAppend(a, init, commandOf);
    }
  }

  /** The set-config commands of all the `ccache_options` lines, in input order */
  function SetConfigCommands(settings: seq<string>): seq<string> {
    CollectCommands(settings, SettingCommand)
  }

  /** A line `key=value` gives exactly the command setting the trimmed key to the trimmed value */
  lemma SetConfigCommandsOfLine(key: string, value: string)
    requires '=' !in key && '=' !in value
    ensures SetConfigCommands([key + "=" + value])
         == [SetConfigPrefix + Trim(key) + "=" + Trim(value) + "\""]
  {
    var line := key + "=" + value;
    SettingCommandOfLine(key, value);
    var c := SettingCommand(line);
    assert [line][..0] == [];
    assert [line][0] == line;
    assert CollectCommands([line], SettingCommand) == CollectCommands([], SettingCommand) + [c.value];
  }

  lemma SettingCommandOfLine(key: string, value: string)
    requires '=' !in key && '=' !in value
    ensures SettingCommand(key + "=" + value) == Some(SetConfigPrefix + Trim(key) + "=" + Trim(value) + "\"")
  {
    SplitSettingExact(key, value);
  }

  /** Lines without `=` give no command */
  lemma {:induction false} SetConfigCommandsSkipsPlainLines(settings: seq<string>)
    requires forall i :: 0 <= i < |settings| ==> '=' !in settings[i]
    ensures SetConfigCommands(settings) == []
  {
    if settings != [] {
      SetConfigCommandsSkipsPlainLines(settings[..|settings| - 1]);
      assert SettingCommand(settings[|settings| - 1]).None?;
    }
  }

  // ---------------------------------------------------------------- running commands

  /** Every command of the list exits with status zero */
  predicate AllSucceed(commands: seq<string>, execOk: string -> bool) {
    forall i :: 0 <= i < |commands| ==> execOk(commands[i])
  }

  /**
   * `await Exec.exec(...)` in sequence: the position of the first command that exits
   * non-zero, whose rejection ends the sequence, or the length when all succeed.
   */
  function FirstFailure(commands: seq<string>, execOk: string -> bool): (k: nat)
    ensures k <= |commands|
    ensures forall i :: 0 <= i < k ==> execOk(commands[i])
    ensures k < |commands| ==> !execOk(commands[k])
  {
    if commands == [] || !execOk(commands[0]) then 0
    else 1 + FirstFailure(commands[1..], execOk)
  }

  /** When every command before k succeeds, the first failure is at k if command k fails, and later otherwise */
  lemma FirstFailureAt(commands: seq<string>, execOk: string -> bool, k: nat)
    requires k < |commands|
    requires forall i :: 0 <= i < k ==> execOk(commands[i])
    ensures !execOk(commands[k]) ==> FirstFailure(commands, execOk) == k
    ensures execOk(commands[k]) ==> FirstFailure(commands, execOk) > k
  {
  }

  /** The commands that run: all of them, or those up to and including the first failure */
  function CommandsRun(commands: seq<string>, execOk: string -> bool): seq<string> {
    var k := FirstFailure(commands, execOk);
    if k == |commands| then commands else commands[..k + 1]
  }

  /**
   * The loop of configureCcache: for each line that yields a command, run it; the first
   * command that exits non-zero ends the loop.
   */
  method RunLines(lines: seq<string>, commandOf: string -> Option<string>, execOk: string -> bool)
    returns (ran: seq<string>, ok: bool)
    ensures ok <==> AllSucceed(CollectCommands(lines, commandOf), execOk)
    ensures ran == CommandsRun(CollectCommands(lines, commandOf), execOk)
  {
    ghost var commands := CollectCommands(lines, commandOf);
    ran := [];
    var i := 0;
    while i < |lines|
      invariant 0 <= i <= |lines|
      invariant ran == CollectCommands(lines[..i], commandOf) && AllSucceed(ran, execOk)
      invariant ran <= commands
    {
      var command := commandOf(lines[i]);
      CollectCommandsStep(lines, commandOf, i);
      if command.Some? {
        ran := ran + [command.value];
        if !execOk(command.value) {
          FirstFailureAt(commands, execOk, |ran| - 1);
          return ran, false;
        }
      }
      i := i + 1;
    }
    assert lines[..i] == lines;
    ok := true;
    if ran != [] {
      FirstFailureAt(commands, execOk, |ran| - 1);
    }
  }

  /** The commands of the first i + 1 lines extend those of the first i and are a prefix of all */
  lemma CollectCommandsStep(lines: seq<string>, commandOf: string -> Option<string>, i: nat)
    requires i < |lines|
    ensures var c := commandOf(lines[i]);
      CollectCommands(lines[..i + 1], commandOf)
        == CollectCommands(lines[..i], commandOf) + (if c.Some? then [c.value] else [])
    ensures CollectCommands(lines[..i + 1], commandOf) <= CollectCommands(lines, commandOf)
  {
    var front, back := lines[..i + 1], lines[i + 1..];
    assert front[..|front| - 1] == lines[..i];
    assert front[|front| - 1] == lines[i];
    assert front + back == lines;
    CollectCommandsAppend(front, back, commandOf);
  }

  /** A failure among the first commands is the first failure of any longer list */
  lemma FirstFailureAppend(a: seq<string>, b: seq<string>, execOk: string -> bool)
    ensures FirstFailure(a, execOk) < |a| ==> FirstFailure(a + b, execOk) == FirstFailure(a, execOk)
    ensures FirstFailure(a, execOk) == |a| ==> FirstFailure(a + b, execOk) == |a| + FirstFailure(b, execOk)
  {
    var k := FirstFailure(a, execOk);
    var ab := a + b;
    assert forall i :: 0 <= i < |a| ==> ab[i] == a[i];
    if k < |a| {
      FirstFailureAt(ab, execOk, k);
    } else {
      var m := FirstFailure(b, execOk);
      assert forall i :: 0 <= i < |b| ==> ab[|a| + i] == b[i];
      if m < |b| {
        FirstFailureAt(ab, execOk, |a| + m);
      } else {
        assert ab == a + b;
        assert forall i :: 0 <= i < |ab| ==> execOk(ab[i]);
        FirstFailureAll(ab, execOk);
      }
    }
  }

  /** All commands succeed exactly when no failure is found */
  lemma FirstFailureAll(commands: seq<string>, execOk: string -> bool)
    ensures FirstFailure(commands, execOk) == |commands| <==> AllSucceed(commands, execOk)
  {
    if AllSucceed(commands, execOk) && |commands| > 0 {
      FirstFailureAt(commands, execOk, |commands| - 1);
    }
  }

  /** What a run of commands in sequence throws: the first command that exits non-zero */
  function RunFailure(commands: seq<string>, execOk: string -> bool): (r: Option<Failure>)
    ensures r.None? <==> AllSucceed(commands, execOk)
    ensures r.Some? ==> r.value.ExecFailed? && r.value.command in commands && !execOk(r.value.command)
  {
    FirstFailureAll(commands, execOk);
    var k := FirstFailure(commands, execOk);
    if k == |commands| then None else Some(ExecFailed(commands[k]))
  }

  /** A run that stopped reports, as its failure, the last command it ran */
  lemma RunEndsAtFailure(commands: seq<string>, execOk: string -> bool, ran: seq<string>, ok: bool)
    requires ok <==> AllSucceed(commands, execOk)
    requires ran == CommandsRun(commands, execOk)
    ensures ok ==> RunFailure(commands, execOk).None?
    ensures !ok ==> ran != [] && RunFailure(commands, execOk) == Some(ExecFailed(ran[|ran| - 1]))
  {
    FirstFailureAll(commands, execOk);
  }

  /** The commands of configureCcache: one per option line, then `ccache -p` */
  function ConfigureCommands(settings: seq<string>): seq<string> {
    SetConfigCommands(settings) + ["ccache -p"]
  }

  /**
   * configureCcache: run the set-config command of each `ccache_options` line in order,
   * then `ccache -p`; the first command that fails ends the step, which then throws.
   */
  method ConfigureCcache(settings: seq<string>, execOk: string -> bool) returns (ran: seq<string>, ok: bool)
    ensures ok <==> AllSucceed(ConfigureCommands(settings), execOk)
    ensures ran == CommandsRun(ConfigureCommands(settings), execOk)
  {
    ghost var lineCommands := SetConfigCommands(settings);
    ghost var commands := lineCommands + ["ccache -p"];
    ran, ok := RunLines(settings, SettingCommand, execOk);
    FirstFailureAll(lineCommands, execOk);
    FirstFailureAll(commands, execOk);
    FirstFailureAppend(lineCommands, ["ccache -p"], execOk);
    if ok {
      ok := execOk("ccache -p");
      ran := ran + ["ccache -p"];
      assert FirstFailure(["ccache -p"], execOk) == if ok then 1 else 0;
      assert ran == commands;
    } else {
      var k := FirstFailure(lineCommands, execOk);
      assert commands[..k + 1] == lineCommands[..k + 1];
    }
  }

  // ---------------------------------------------------------------- availability and restore

  /** Why a step threw */
  datatype Failure =
    | NotFound                  // `Cannot find ccache on PATH`
    | ExecFailed(command: string)
    | CachePathFailed           // getCachePath found no cache directory
    | RestoreFailed             // Cache.restoreCache rejected

  /** The message checkCcacheAvailability throws with, which main passes to setFailed */
  const NotFoundMessage := "Cannot find ccache on PATH"

  /**
   * checkCcacheAvailability: `which` throwing (None) or giving an empty path is NotFound;
   * otherwise `ccache --version` runs and fails the step if it exits non-zero.
   */
  function CheckCcacheAvailability(which: Option<string>, execOk: string -> bool): (r: Option<Failure>)
    ensures r == Some(NotFound) <==> which.None? || which.value == ""
    ensures r.None? <==> which.Some? && which.value != "" && execOk("ccache --version")
  {
    match which
    case None => Some(NotFound)
    case Some(path) =>
      if |path| <= 0 then Some(NotFound)
      else if execOk("ccache --version") then None
      else Some(ExecFailed("ccache --version"))
  }

  /** How `Cache.restoreCache` settles: the key of the entry it restored (undefined: None), or a rejection */
  datatype RestoreOutcome = Resolved(key: Option<string>) | Rejected

  /** `cachePath ? true : false`: a hit is a restored key that is a non-empty string */
  predicate IsHit(outcome: RestoreOutcome) {
    outcome.Resolved? && outcome.key.Some? && outcome.key.value != ""
  }

  /** The inputs of the action that decide the setup step */
  datatype Inputs = Inputs(
    updatePackagerIndex: bool,
    installCcache: bool,
    restoreCache: bool,
    prependSymlinksToPath: bool,
    ccacheOptions: seq<string>,
    overrideCacheKey: string,
    overrideCacheKeyFallback: seq<string>)

  /** The arguments restoreCache passes to `Cache.restoreCache`: the primary key and the restore keys */
  function RestoreRequest(inputs: Inputs, ctx: Utils.Context): (request: (string, seq<string>))
    ensures request == (Utils.GetOverrideCacheKey(inputs.overrideCacheKey, ctx).value,
                        Utils.GetOverrideCacheKeyFallback(inputs.overrideCacheKeyFallback, inputs.overrideCacheKey, ctx))
    ensures inputs.overrideCacheKey != "" ==> request.0 == inputs.overrideCacheKey
    ensures inputs.overrideCacheKeyFallback != [] ==> request.1 == inputs.overrideCacheKeyFallback
    ensures request.0 != ""
    ensures request.1 != []
    ensures inputs.overrideCacheKeyFallback == [] ==> request.1[0] == request.0
    ensures inputs.overrideCacheKeyFallback == [] && inputs.overrideCacheKey == "" ==>
      forall i :: 0 <= i < |request.1| ==> request.1[i] <= request.0
  {
    var primary := Utils.GetOverrideCacheKey(inputs.overrideCacheKey, ctx).value;
    var restoreKeys := Utils.GetOverrideCacheKeyFallback(inputs.overrideCacheKeyFallback, inputs.overrideCacheKey, ctx);
    Utils.DefaultRestoreKeys(ctx);
    (primary, restoreKeys)
  }

  /**
   * restoreCache: None when it throws (no cache directory, or the restore rejected),
   * otherwise whether the restore found an entry.
   */
  function RestoreCache(cachePath: Option<string>, inputs: Inputs, ctx: Utils.Context,
                        restore: (string, seq<string>) -> RestoreOutcome): (r: Option<bool>)
    ensures var outcome := restore(RestoreRequest(inputs, ctx).0, RestoreRequest(inputs, ctx).1);
      && (r.None? <==> cachePath.None? || outcome.Rejected?)
      && (r == Some(true) <==> cachePath.Some? && IsHit(outcome))
  {
    if cachePath.None? then None
    else
      var request := RestoreRequest(inputs, ctx);
      match restore(request.0, request.1)
      case Rejected => None
      case Resolved(key) => Some(key.Some? && key.value != "")
  }

  // ---------------------------------------------------------------- main

  /** The steps of main, as they appear in the log */
  datatype Step =
    | UpdatePackagerIndex
    | InstallCcache
    | CheckAvailability
    | Restore
    | SetCacheHitOutput(value: string)
    | Configure
    | ZeroStats
    | PrependSymlinksToPath
    | SetOutputVariables

  /** `cacheHit.toString()` */
  function BoolString(b: bool): (s: string)
    ensures s == "true" || s == "false"
    ensures s == "true" <==> b
  {
    if b then "true" else "false"
  }

  /** An optional step: present exactly when its input is on */
  function Gate(on: bool, step: Step): seq<Step> {
    if on then [step] else []
  }

  /** The steps of main up to the restore, whose outcome decides the cache hit */
  function PreludeSteps(inputs: Inputs): seq<Step> {
    Gate(inputs.updatePackagerIndex, UpdatePackagerIndex)
      + Gate(inputs.installCcache, InstallCcache)
      + [CheckAvailability]
      + Gate(inputs.restoreCache, Restore)
  }

  /** The steps of main from the cache-hit output on */
  function FinishSteps(inputs: Inputs, cacheHit: bool): seq<Step> {
    [SetCacheHitOutput(BoolString(cacheHit)), Configure, ZeroStats]
      + Gate(inputs.prependSymlinksToPath, PrependSymlinksToPath)
      + [SetOutputVariables]
  }

  /** The steps main goes through on a supported platform when none of them throws */
  function PlannedSteps(inputs: Inputs, cacheHit: bool): seq<Step> {
    PreludeSteps(inputs) + FinishSteps(inputs, cacheHit)
  }

  /** Each optional step is planned exactly when its input is on */
  lemma PlanGates(inputs: Inputs, cacheHit: bool)
    ensures var plan := PlannedSteps(inputs, cacheHit);
      && (UpdatePackagerIndex in plan <==> inputs.updatePackagerIndex)
      && (InstallCcache in plan <==> inputs.installCcache)
      && (Restore in plan <==> inputs.restoreCache)
      && (PrependSymlinksToPath in plan <==> inputs.prependSymlinksToPath)
  {
    // one case per combination of the four gates; in each the plan is a literal
    var u, i, r, p := inputs.updatePackagerIndex, inputs.installCcache, inputs.restoreCache, inputs.prependSymlinksToPath;
    if u {
      if i { if r { if p {} } else { if p {} } } else { if r { if p {} } else { if p {} } }
    } else {
      if i { if r { if p {} } else { if p {} } } else { if r { if p {} } else { if p {} } }
    }
  }

  /** The output step is the only step that carries a value */
  lemma PlanOutputOnce(inputs: Inputs, cacheHit: bool, i: nat)
    requires i < |PlannedSteps(inputs, cacheHit)| && PlannedSteps(inputs, cacheHit)[i].SetCacheHitOutput?
    ensures PlannedSteps(inputs, cacheHit)[i] == SetCacheHitOutput(BoolString(cacheHit))
  {
    var u, n, r, p := inputs.updatePackagerIndex, inputs.installCcache, inputs.restoreCache, inputs.prependSymlinksToPath;
    if u {
      if n { if r { if p {} } else { if p {} } } else { if r { if p {} } else { if p {} } }
    } else {
      if n { if r { if p {} } else { if p {} } } else { if r { if p {} } else { if p {} } }
    }
  }

  /**
   * The steps that are always planned are there; the output step, the only one,
   * carries the string of the cache hit; the last step sets the environment variables.
   */
  lemma PlannedStepsFixed(inputs: Inputs, cacheHit: bool)
    ensures var plan := PlannedSteps(inputs, cacheHit);
      && CheckAvailability in plan && Configure in plan && ZeroStats in plan
      && SetCacheHitOutput(BoolString(cacheHit)) in plan
      && (forall i :: 0 <= i < |plan| && plan[i].SetCacheHitOutput? ==> plan[i].value == BoolString(cacheHit))
      && plan[|plan| - 1] == SetOutputVariables
  {
    PlanLayout(inputs, cacheHit);
    var plan := PlannedSteps(inputs, cacheHit);
    var check := (if inputs.updatePackagerIndex then 1 else 0) + (if inputs.installCcache then 1 else 0);
    var output := check + 1 + (if inputs.restoreCache then 1 else 0);
    assert plan[check] == CheckAvailability;
    assert plan[output] == SetCacheHitOutput(BoolString(cacheHit));
    assert plan[output + 1] == Configure;
    assert plan[output + 2] == ZeroStats;
    forall i | 0 <= i < |plan| && plan[i].SetCacheHitOutput?
      ensures plan[i].value == BoolString(cacheHit)
    {
      PlanOutputOnce(inputs, cacheHit, i);
    }
  }

  /** Where each step sits in the plan */
  lemma PlanLayout(inputs: Inputs, cacheHit: bool)
    ensures var plan := PlannedSteps(inputs, cacheHit);
      var check := (if inputs.updatePackagerIndex then 1 else 0) + (if inputs.installCcache then 1 else 0);
      var output := check + 1 + (if inputs.restoreCache then 1 else 0);
      && |plan| == output + 4 + (if inputs.prependSymlinksToPath then 1 else 0)
      && (inputs.updatePackagerIndex ==> plan[0] == UpdatePackagerIndex)
      && (inputs.installCcache ==> plan[check - 1] == InstallCcache)
      && plan[check] == CheckAvailability
      && (inputs.restoreCache ==> plan[check + 1] == Restore)
      && plan[output] == SetCacheHitOutput(BoolString(cacheHit))
      && plan[output + 1] == Configure
      && plan[output + 2] == ZeroStats
      && (inputs.prependSymlinksToPath ==> plan[output + 3] == PrependSymlinksToPath)
      && plan[|plan| - 1] == SetOutputVariables
  {
    // one case per combination of the four gates; in each the plan is a literal
    var u, i, r, p := inputs.updatePackagerIndex, inputs.installCcache, inputs.restoreCache, inputs.prependSymlinksToPath;
    if u {
      if i { if r { if p {} } else { if p {} } } else { if r { if p {} } else { if p {} } }
    } else {
      if i { if r { if p {} } else { if p {} } } else { if r { if p {} } else { if p {} } }
    }
  }

  /** Where each step sits in the first phase */
  lemma PreludeLayout(inputs: Inputs)
    ensures var plan := PreludeSteps(inputs);
      var check := (if inputs.updatePackagerIndex then 1 else 0) + (if inputs.installCcache then 1 else 0);
      && |plan| == check + 1 + (if inputs.restoreCache then 1 else 0)
      && (inputs.updatePackagerIndex ==> plan[0] == UpdatePackagerIndex)
      && (inputs.installCcache ==> plan[check - 1] == InstallCcache)
      && (forall i :: 0 <= i < check ==> plan[i] == UpdatePackagerIndex || plan[i] == InstallCcache)
      && plan[check] == CheckAvailability
      && (inputs.restoreCache ==> plan[check + 1] == Restore)
  {
    var u, i, r := inputs.updatePackagerIndex, inputs.installCcache, inputs.restoreCache;
    if u { if i { if r {} } else { if r {} } } else { if i { if r {} } else { if r {} } }
  }

  /** Where each step sits in the second phase */
  lemma FinishLayout(inputs: Inputs, cacheHit: bool)
    ensures var plan := FinishSteps(inputs, cacheHit);
      && |plan| == 4 + (if inputs.prependSymlinksToPath then 1 else 0)
      && plan[0] == SetCacheHitOutput(BoolString(cacheHit))
      && plan[1] == Configure
      && plan[2] == ZeroStats
      && (inputs.prependSymlinksToPath ==> plan[3] == PrependSymlinksToPath)
      && plan[|plan| - 1] == SetOutputVariables
  {
    if inputs.prependSymlinksToPath {}
  }

  /** The package manager command of a step, empty on Windows, where the step does nothing */
  function PackagerCommand(step: Step, platform: string): string
    requires step == UpdatePackagerIndex || step == InstallCcache
  {
    match platform
    case "darwin" => if step == UpdatePackagerIndex then "brew update" else "brew install ccache"
    case "linux" => if step == UpdatePackagerIndex then "sudo apt update" else "sudo apt install -y ccache"
    case _ => ""
  }

  /** What the world answers: exit statuses, `which`, getCachePath and the cache service */
  datatype Services = Services(
    execOk: string -> bool,
    which: Option<string>,
    cachePath: Option<string>,
    restore: (string, seq<string>) -> RestoreOutcome)

  /** Whether main's cacheHit ends up true: restore_cache is on and the restore found an entry */
  predicate CacheHitOf(inputs: Inputs, ctx: Utils.Context, services: Services) {
    inputs.restoreCache && RestoreCache(services.cachePath, inputs, ctx, services.restore) == Some(true)
  }

  /** `await Exec.exec(command)`: rejects when the command exits non-zero */
  function ExecFailure(command: string, execOk: string -> bool): (r: Option<Failure>)
    ensures r.None? <==> execOk(command)
    ensures r.Some? ==> r.value == ExecFailed(command)
  {
    if execOk(command) then None else Some(ExecFailed(command))
  }

  /** A package step: nothing to run on Windows, else the package manager command */
  function PackagerFailure(step: Step, platform: string, execOk: string -> bool): (r: Option<Failure>)
    requires step == UpdatePackagerIndex || step == InstallCcache
    ensures PackagerCommand(step, platform) == "" ==> r.None?
    ensures r.Some? <==> PackagerCommand(step, platform) != "" && !execOk(PackagerCommand(step, platform))
    ensures r.Some? ==> r.value == ExecFailed(PackagerCommand(step, platform))
  {
    var command := PackagerCommand(step, platform);
    if command == "" then None else ExecFailure(command, execOk)
  }

  /** restoreCache throws when getCachePath finds no directory or the restore rejects */
  function RestoreFailure(inputs: Inputs, ctx: Utils.Context, services: Services): (r: Option<Failure>)
    ensures r.None? <==> RestoreCache(services.cachePath, inputs, ctx, services.restore).Some?
  {
    if services.cachePath.None? then Some(CachePathFailed)
    else if RestoreCache(services.cachePath, inputs, ctx, services.restore).None? then Some(RestoreFailed)
    else None
  }

  /** The error each step that can throw would throw, if any */
  datatype StepFailures = StepFailures(
    updatePackagerIndex: Option<Failure>,
    installCcache: Option<Failure>,
    checkAvailability: Option<Failure>,
    restore: Option<Failure>,
    configure: Option<Failure>,
    zeroStats: Option<Failure>)

  function Failures(platform: string, inputs: Inputs, ctx: Utils.Context, services: Services): StepFailures {
    StepFailures(
      PackagerFailure(UpdatePackagerIndex, platform, services.execOk),
      PackagerFailure(InstallCcache, platform, services.execOk),
      CheckCcacheAvailability(services.which, services.execOk),
      RestoreFailure(inputs, ctx, services),
      RunFailure(ConfigureCommands(inputs.ccacheOptions), services.execOk),
      ExecFailure("ccache --zero-stats", services.execOk))
  }

  /** The error a step throws, if any; the output and path steps do not throw */
  function StepFailure(step: Step, failures: StepFailures): Option<Failure> {
    match step
    case UpdatePackagerIndex => failures.updatePackagerIndex
    case InstallCcache => failures.installCcache
    case CheckAvailability => failures.checkAvailability
    case Restore => failures.restore
    case Configure => failures.configure
    case ZeroStats => failures.zeroStats
    case _ => None
  }

  /** How main ends */
  datatype SetupOutcome =
    | Unsupported                                   // warned and did nothing
    | Completed(steps: seq<Step>, cacheHit: bool)
    | Failed(steps: seq<Step>, failure: Failure)   // the last step threw; setFailed was called

  /** None of the steps throws */
  predicate NoneFailed(steps: seq<Step>, failures: StepFailures) {
    forall i :: 0 <= i < |steps| ==> StepFailure(steps[i], failures).None?
  }

  /**
   * A run of the planned steps cut at its first failing step: with no failure it is the
   * whole plan and no step threw; with a failure it is a prefix of the plan whose last
   * step threw that failure and whose earlier steps did not throw.
   */
  predicate Follows(steps: seq<Step>, failure: Option<Failure>, plan: seq<Step>, failures: StepFailures) {
    if failure.None? then steps == plan && NoneFailed(steps, failures)
    else
      && steps != [] && steps <= plan
      && NoneFailed(steps[..|steps| - 1], failures)
      && StepFailure(steps[|steps| - 1], failures) == failure
  }

  /** The outcome of main is the plan run up to its first failing step */
  predicate FollowsPlan(outcome: SetupOutcome, plan: seq<Step>, failures: StepFailures) {
    match outcome
    case Unsupported => false
    case Completed(steps, _) => Follows(steps, None, plan, failures)
    case Failed(steps, failure) => Follows(steps, Some(failure), plan, failures)
  }

  /** Taking the next planned step extends the prefix of the plan taken so far */
  lemma Advance(plan: seq<Step>, n: nat, steps: seq<Step>, step: Step)
    requires n < |plan| && steps == plan[..n] && plan[n] == step
    ensures steps + [step] == plan[..n + 1]
  {
  }

  /** A step that does not throw keeps the record of the steps taken clean */
  lemma Succeeded(steps: seq<Step>, step: Step, failures: StepFailures)
    requires NoneFailed(steps, failures)
    requires StepFailure(step, failures).None?
    ensures NoneFailed(steps + [step], failures)
  {
    assert forall i :: 0 <= i < |steps| ==> (steps + [step])[i] == steps[i];
  }

  /** A step that throws ends a run that follows the plan */
  lemma FailedAt(plan: seq<Step>, n: nat, steps: seq<Step>, step: Step, failure: Failure, failures: StepFailures)
    requires n < |plan| && steps == plan[..n] && plan[n] == step
    requires NoneFailed(steps, failures)
    requires StepFailure(step, failures) == Some(failure)
    ensures Follows(steps + [step], Some(failure), plan, failures)
  {
    assert (steps + [step])[..|steps|] == steps;
  }

  /** A run of a whole plan followed by a run of a second plan is a run of the two plans in sequence */
  lemma FollowsConcat(first: seq<Step>, firstPlan: seq<Step>, second: seq<Step>, failure: Option<Failure>,
                      secondPlan: seq<Step>, failures: StepFailures)
    requires Follows(first, None, firstPlan, failures)
    requires Follows(second, failure, secondPlan, failures)
    ensures Follows(first + second, failure, firstPlan + secondPlan, failures)
  {
    var steps := first + second;
    var clean := if failure.None? then second else second[..|second| - 1];
    assert forall i :: 0 <= i < |clean| ==> clean[i] == second[i];
    assert forall i :: 0 <= i < |first| + |clean| ==>
      (first + clean)[i] == (if i < |first| then first[i] else clean[i - |first|]);
    if failure.Some? {
      assert steps[..|steps| - 1] == first + clean;
      assert steps[|steps| - 1] == second[|second| - 1];
    }
  }

  /** The first phase of main: the package steps, the availability check and the restore */
  method Prepare(platform: string, inputs: Inputs, ctx: Utils.Context, services: Services, ghost failures: StepFailures)
    returns (steps: seq<Step>, failure: Option<Failure>, cacheHit: bool)
    requires failures.updatePackagerIndex == PackagerFailure(UpdatePackagerIndex, platform, services.execOk)
    requires failures.installCcache == PackagerFailure(InstallCcache, platform, services.execOk)
    requires failures.checkAvailability == CheckCcacheAvailability(services.which, services.execOk)
    requires failures.restore == RestoreFailure(inputs, ctx, services)
    ensures Follows(steps, failure, PreludeSteps(inputs), failures)
    ensures failure.None? ==> cacheHit == CacheHitOf(inputs, ctx, services)
  {
    ghost var plan := PreludeSteps(inputs);
    PreludeLayout(inputs);
    ghost var n := 0;
    steps, cacheHit := [], false;

    if inputs.updatePackagerIndex {
      Advance(plan, n, steps, UpdatePackagerIndex);
      var command := PackagerCommand(UpdatePackagerIndex, platform);
      if command != "" && !services.execOk(command) {
        FailedAt(plan, n, steps, UpdatePackagerIndex, ExecFailed(command), failures);
        return steps + [UpdatePackagerIndex], Some(ExecFailed(command)), false;
      }
      Succeeded(steps, UpdatePackagerIndex, failures);
      steps, n := steps + [UpdatePackagerIndex], n + 1;
    }

    if inputs.installCcache {
      Advance(plan, n, steps, InstallCcache);
      var command := PackagerCommand(InstallCcache, platform);
      if command != "" && !services.execOk(command) {
        FailedAt(plan, n, steps, InstallCcache, ExecFailed(command), failures);
        return steps + [InstallCcache], Some(ExecFailed(command)), false;
      }
      Succeeded(steps, InstallCcache, failures);
      steps, n := steps + [InstallCcache], n + 1;
    }

    assert n == (if inputs.updatePackagerIndex then 1 else 0) + (if inputs.installCcache then 1 else 0);
    Advance(plan, n, steps, CheckAvailability);
    failure := CheckCcacheAvailability(services.which, services.execOk);
    if failure.Some? {
      FailedAt(plan, n, steps, CheckAvailability, failure.value, failures);
      return steps + [CheckAvailability], failure, false;
    }
    Succeeded(steps, CheckAvailability, failures);
    steps, n := steps + [CheckAvailability], n + 1;

    if inputs.restoreCache {
      Advance(plan, n, steps, Restore);
      var restored := RestoreCache(services.cachePath, inputs, ctx, services.restore);
      if restored.None? {
        failure := Some(if services.cachePath.None? then CachePathFailed else RestoreFailed);
        FailedAt(plan, n, steps, Restore, failure.value, failures);
        return steps + [Restore], failure, false;
      }
      Succeeded(steps, Restore, failures);
      steps, n := steps + [Restore], n + 1;
      cacheHit := restored.value;
    }
    assert n == |plan| && steps == plan;
  }

  /** The second phase of main: output the cache hit, configure, zero the statistics, set the paths */
  method Finish(inputs: Inputs, services: Services, cacheHit: bool, ghost failures: StepFailures)
    returns (steps: seq<Step>, failure: Option<Failure>)
    requires failures.configure == RunFailure(ConfigureCommands(inputs.ccacheOptions), services.execOk)
    requires failures.zeroStats == ExecFailure("ccache --zero-stats", services.execOk)
    ensures Follows(steps, failure, FinishSteps(inputs, cacheHit), failures)
  {
    ghost var plan := FinishSteps(inputs, cacheHit);
    FinishLayout(inputs, cacheHit);
    var output := SetCacheHitOutput(BoolString(cacheHit));
    Succeeded([], output, failures);
    steps := [output];

    Advance(plan, 1, steps, Configure);
    var ran, configured := ConfigureCcache(inputs.ccacheOptions, services.execOk);
    RunEndsAtFailure(ConfigureCommands(inputs.ccacheOptions), services.execOk, ran, configured);
    if !configured {
      failure := Some(ExecFailed(ran[|ran| - 1]));
      FailedAt(plan, 1, steps, Configure, failure.value, failures);
      return steps + [Configure], failure;
    }
    Succeeded(steps, Configure, failures);
    steps := steps + [Configure];

    Advance(plan, 2, steps, ZeroStats);
    if !services.execOk("ccache --zero-stats") {
      failure := Some(ExecFailed("ccache --zero-stats"));
      FailedAt(plan, 2, steps, ZeroStats, failure.value, failures);
      return steps + [ZeroStats], failure;
    }
    Succeeded(steps, ZeroStats, failures);
    steps := steps + [ZeroStats];

    if inputs.prependSymlinksToPath {
      Advance(plan, 3, steps, PrependSymlinksToPath);
      Succeeded(steps, PrependSymlinksToPath, failures);
      steps := steps + [PrependSymlinksToPath];
    }
    Advance(plan, |steps|, steps, SetOutputVariables);
    Succeeded(steps, SetOutputVariables, failures);
    steps, failure := steps + [SetOutputVariables], None;
    assert steps == plan;
  }

  /**
   * main: on an unsupported platform, warn and stop; otherwise run the steps in order,
   * each optional one gated by its input, and turn the first thrown Error into setFailed.
   */
  method Run(platform: string, compileEnvironment: string, inputs: Inputs, ctx: Utils.Context, services: Services)
    returns (outcome: SetupOutcome)
    ensures !Utils.IsSupportedPlatform(platform, compileEnvironment) <==> outcome == Unsupported
    ensures Utils.IsSupportedPlatform(platform, compileEnvironment) ==>
      FollowsPlan(outcome, PlannedSteps(inputs, CacheHitOf(inputs, ctx, services)), Failures(platform, inputs, ctx, services))
    ensures outcome.Completed? ==> outcome.cacheHit == CacheHitOf(inputs, ctx, services)
  {
    if !Utils.IsSupportedPlatform(platform, compileEnvironment) {
      return Unsupported;
    }
    ghost var failures := Failures(platform, inputs, ctx, services);
    var prelude, failure, cacheHit := Prepare(platform, inputs, ctx, services, failures);
    if failure.Some? {
      PreludeStepsArePlanned(prelude, failure, inputs, CacheHitOf(inputs, ctx, services), failures);
      return Failed(prelude, failure.value);
    }
    var rest, restFailure := Finish(inputs, services, cacheHit, failures);
    FollowsConcat(prelude, PreludeSteps(inputs), rest, restFailure, FinishSteps(inputs, cacheHit), failures);
    if restFailure.Some? {
      return Failed(prelude + rest, restFailure.value);
    }
    outcome := Completed(prelude + rest, cacheHit);
  }

  /** A run of the first phase that failed is a failed run of the whole plan */
  lemma PreludeStepsArePlanned(steps: seq<Step>, failure: Option<Failure>, inputs: Inputs, cacheHit: bool,
                               failures: StepFailures)
    requires failure.Some?
    requires Follows(steps, failure, PreludeSteps(inputs), failures)
    ensures Follows(steps, failure, PlannedSteps(inputs, cacheHit), failures)
  {
    assert PreludeSteps(inputs) <= PlannedSteps(inputs, cacheHit);
  }

  /** With restore_cache off the output is "false", whatever the cache holds */
  lemma CacheHitOffWithoutRestore(inputs: Inputs, ctx: Utils.Context, services: Services)
    requires !inputs.restoreCache
    ensures SetCacheHitOutput("false") in PlannedSteps(inputs, CacheHitOf(inputs, ctx, services))
    ensures Restore !in PlannedSteps(inputs, CacheHitOf(inputs, ctx, services))
  {
    PlanGates(inputs, CacheHitOf(inputs, ctx, services));
    PlannedStepsFixed(inputs, CacheHitOf(inputs, ctx, services));
  }

  /** A run stops at the latest at the first planned step that throws */
  lemma StopsBy(steps: seq<Step>, failure: Option<Failure>, front: seq<Step>, back: seq<Step>, k: nat,
                failures: StepFailures)
    requires Follows(steps, failure, front + back, failures)
    requires k < |front| && StepFailure(front[k], failures).Some?
    ensures failure.Some? && |steps| <= k + 1
    ensures forall i :: 0 <= i < |steps| ==> steps[i] == front[i]
  {
    var plan := front + back;
    assert plan[k] == front[k];
    assert forall i :: 0 <= i < |steps| ==> steps[i] == plan[i];
  }

  /**
   * When ccache is not on PATH, setup fails at the availability check at the latest:
   * it never restores, configures nor zeroes the statistics, and it reports NotFound
   * exactly when the check is the step that threw.
   */
  lemma NotFoundStopsSetup(outcome: SetupOutcome, platform: string, inputs: Inputs, cacheHit: bool,
                           services: Services, failures: StepFailures)
    requires services.which.None? || services.which.value == ""
    requires failures.updatePackagerIndex == PackagerFailure(UpdatePackagerIndex, platform, services.execOk)
    requires failures.installCcache == PackagerFailure(InstallCcache, platform, services.execOk)
    requires failures.checkAvailability == CheckCcacheAvailability(services.which, services.execOk)
    requires FollowsPlan(outcome, PlannedSteps(inputs, cacheHit), failures)
    ensures outcome.Failed?
    ensures forall i :: 0 <= i < |outcome.steps| ==>
      outcome.steps[i] == UpdatePackagerIndex || outcome.steps[i] == InstallCcache || outcome.steps[i] == CheckAvailability
    ensures outcome.steps[|outcome.steps| - 1] == CheckAvailability <==> outcome.failure == NotFound
  {
    PreludeLayout(inputs);
    var check := (if inputs.updatePackagerIndex then 1 else 0) + (if inputs.installCcache then 1 else 0);
    var failure := if outcome.Failed? then Some(outcome.failure) else None;
    var prelude := PreludeSteps(inputs);
    StopsBy(outcome.steps, failure, prelude, FinishSteps(inputs, cacheHit), check, failures);
    forall i | 0 <= i < |outcome.steps|
      ensures outcome.steps[i] == UpdatePackagerIndex || outcome.steps[i] == InstallCcache
           || outcome.steps[i] == CheckAvailability
    {
      assert outcome.steps[i] == prelude[i] && i <= check;
    }
    var last := outcome.steps[|outcome.steps| - 1];
    assert StepFailure(last, failures) == Some(outcome.failure);
    if last != CheckAvailability {
      assert last == UpdatePackagerIndex || last == InstallCcache;
      assert outcome.failure.ExecFailed?;
    }
  }
}
