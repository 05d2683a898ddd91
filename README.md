# setup-ccache-action, modelled in Dafny

This project models the core of the `setup-ccache-action` GitHub Action. The action
installs and configures ccache, restores a compiler cache before a build, stores it
again after the build and removes superseded cache entries.

The model has five modules:

- `Wrappers` (wrappers.dfy): `Option`, which stands for JavaScript's `undefined`, `null` and `NaN`.
- `JsString` (js_string.dfy): the JavaScript built-ins the core relies on. These are
  `trim`, `indexOf`, `lastIndexOf`, `slice`, `split` with a one-character separator,
  `join`, the global `parseInt` with its radix rules, and the decimal rendering of a
  non-negative integer.
- `Utils` (utils.dfy), for `src/utils.ts`:
  - the cache-key builder (default segments, override key and fallback restore keys);
  - the platform tables (supported platforms, command wrapping for MSYS2, package
    prefixes, `sudo`);
  - the two parsers of ccache's standard output (`cache_dir = ` and `version `);
  - the `g_ccachePath` memo, a class whose field the lookup fills.
- `Post` (post.dfy), for `src/post.ts`:
  - the time-stamped keys, and how they are read back by `lastIndexOf('_')` and `parseInt`;
  - the upload retry loop of `saveCache`, a method proved against the recursive function `SaveFrom`;
  - the stale-entry filter and the delete loop of `removeStaleCache`;
  - the statistics command;
  - `main`. Its module-level `storedCacheKey` is a field of the class `PostState`.
- `Setup` (setup.dfy), for `src/main.ts`:
  - the `ccache_options` lines turned into `ccache --set-config` commands and run in order;
  - the availability check and the restore;
  - the sequence of steps that `main` runs, and how the first step that throws ends it.

External effects are parameters. These include the clock, the cache service, the REST
calls that list and delete entries, the exit status of each command, `which` and the
output of the ccache commands. The contracts relate what the code does to these answers.

`getCcacheVersion` maps `parseInt` over the dot-separated pieces, so `parseInt` gets each
element's index as its radix. Element 0 gets radix 0, which means 16 after a `0x` prefix
and 10 otherwise. Element 1 always gives NaN. `Utils.ParseCcacheVersion` models this as
written. Only element 0 is ever used, so it has no further effect.

`removeStaleCache` asks for the entries whose key starts with the stored key's family. It
then keeps every entry whose time suffix is older. So when one primary key is a proper
prefix of another, for example override keys `k` and `k2`, storing under `k` also selects
older `k2` entries. `Post.ForeignFamilySelected` states this as the code does it.

## Model

| member | source | states |
|---|---|---|
| JsString.TrimStart | src/utils.ts:43 | the result is the suffix of the input left after its leading white space, and does not start with white space |
| JsString.TrimEnd | src/utils.ts:43 | the result is the prefix of the input left before its trailing white space, and does not end with white space |
| JsString.Trim | src/utils.ts:43 | the result neither starts nor ends with white space; a string without white space at either end is returned unchanged |
| JsString.TrimKeepsAbsent | src/main.ts:49 | a character absent from a string is absent from its trimmed form, so trimming the key and value of an option line cannot bring in an `=` |
| JsString.TrimIdempotent | src/main.ts:49 | trimming twice is trimming once |
| JsString.IndexOf | src/main.ts:46 | the result is -1 when the character does not occur, otherwise its first position |
| JsString.LastIndexOf | src/post.ts:28 | the result is -1 when the character does not occur, otherwise its last position |
| JsString.RelativeIndex | src/post.ts:28 | a negative `slice` argument counts from the end and is clamped to 0; one past the end is clamped to the length; a position within the string is kept |
| JsString.Slice | src/post.ts:28 | within bounds, `slice(start, end)` is the substring from start to end; a negative end counts from the end, as in `slice(0, -1)`; an empty range gives the empty string |
| JsString.Join | src/utils.ts:163 | `parts.join(sep)`: the separator between consecutive parts. JoinAppend and SplitJoin state its properties |
| JsString.JoinAppend | src/utils.ts:177 | joining two non-empty lists puts exactly one separator between their joins |
| JsString.Split | src/utils.ts:143 | there is at least one piece, and no piece holds the separator; the result is the whole string alone exactly when the separator is absent; joining the pieces with the separator gives the string back |
| JsString.SplitFirstPiece | src/main.ts:46 | the first piece is everything before the first separator |
| JsString.SplitJoin | src/utils.ts:163 | splitting the join of pieces that lack the separator gives back the pieces |
| JsString.JoinInjective | src/utils.ts:163 | joining with a one-character separator is injective on lists whose pieces lack it |
| JsString.DigitRun | src/post.ts:45 | the length of the longest prefix of radix digits: every character before it is a digit and the one at it is not |
| JsString.ParseInt | src/post.ts:45 | the global `parseInt`: skip leading white space, take a sign, NaN for a radix outside 2..36 other than 0. ParseNatToString, ParseDecimalPrefix and ParseIntOfUnsigned state what it reads |
| JsString.ParseUnsigned | src/utils.ts:143 | the digits of `parseInt`: radix 16 after `0x` when the radix is 0 or 16, else the radix given or 10; NaN without a digit. ParseUnsignedDecimal states what it reads |
| JsString.ParseDecimalPrefix | src/utils.ts:143 | `parseInt` with radix 10 or none reads a run of decimal digits followed by a non-digit as the value of those digits |
| JsString.ParseIntOfUnsigned | src/post.ts:45 | a string starting with a decimal digit has no white space or sign to skip, so `parseInt` reads its digits directly |
| JsString.ParseUnsignedDecimal | src/post.ts:45 | a run of decimal digits that is not a `0x` prefix reads as its decimal value |
| JsString.DigitRunOfDecimal | src/post.ts:45 | the digit run of decimal digits followed by a non-digit is exactly those digits |
| JsString.NatToString | src/post.ts:93 | the decimal rendering of `Date.now()` is a non-empty string of decimal digits |
| JsString.NatToStringValue | src/post.ts:93 | the digits of the rendering of n have the value n |
| JsString.ParseNatToString | src/post.ts:45 | `parseInt(String(n), 10)` gives back n, so a rendered time reads back as itself |
| Utils.DefaultCacheKeys | src/utils.ts:17-31 | four segments (namespace, workflow, job, image), plus `actor-headRef` as a fifth exactly when the head ref is non-empty |
| Utils.GetOverrideCacheKey | src/utils.ts:159-165 | `isDefault` holds exactly when the override input is empty; then the value is the segments joined by `_` and starts with `setup-ccache-action_`; otherwise it is the input itself; the value is never empty |
| Utils.GetOverrideCacheKeyFallback | src/utils.ts:167-180 | an explicit fallback list wins; otherwise a non-default key alone; otherwise the prefix list; without an explicit list the first restore key is the primary key |
| Utils.FallbackPrefixes | src/utils.ts:176-179 | the `reduceRight` yields one entry per segment |
| Utils.FallbackPrefixesAt | src/utils.ts:176-179 | entry i of the `reduceRight` list joins the first n - i segments |
| Utils.JoinSplitsAtSegment | src/utils.ts:163 | the join of all segments is the join of the first k segments, `_`, and the join of the rest |
| Utils.DefaultFallbackShape | src/utils.ts:176-179 | the prefix list starts with the full join and ends with the first segment; each entry is the next plus `_` and one segment; lengths strictly decrease; every entry is a prefix of the full join |
| Utils.FallbackPrefixStep | src/utils.ts:176-179 | each entry of the prefix list is the next entry extended by `_` and one segment |
| Utils.JoinSnoc | src/utils.ts:177 | joining one more segment appends `_` and that segment |
| Utils.FallbackPrefixIsPrefix | src/utils.ts:176-179 | every entry of the prefix list is a prefix of the full join |
| Utils.DefaultRestoreKeys | src/utils.ts:159-180 | with no override and no explicit list, the restore keys run from the primary key down to `setup-ccache-action`, each one a shorter prefix of the primary key |
| Utils.DefaultKeyDeterminesSegments | src/utils.ts:159-165 | when no segment holds `_`, splitting the default key at `_` recovers the segments, and two runs get the same key exactly when their segments are equal |
| Utils.PushBuildKeys | src/utils.ts:167-180 | a push build of workflow `ci`, job `build` on `ubuntu22` gets the primary key and the four restore keys, spelled out |
| Utils.JoinsOfFourSegments | src/utils.ts:163 | the joins of the first one to four of four segments, spelled out |
| Utils.PullRequestSegments | src/utils.ts:26-28 | a pull-request build's key is the push build's key plus `_actor-headRef`; its first restore key is that key and its second is the push build's key |
| Utils.IsSupportedPlatform | src/utils.ts:182-200 | macOS and Linux, and Windows with MSVC or MSYS2. PlatformExecWrapSupported and CcacheLookupCommand state what depends on it |
| Utils.PlatformExecWrap | src/utils.ts:220-239 | the command unchanged, wrapped for MSYS2, or empty. PlatformExecWrapSupported and Msys2WrapRoundTrip state its properties |
| Utils.EscapeQuotes | src/utils.ts:231 | every double quote in the result is preceded by a backslash, and the result does not start with a quote |
| Utils.UnescapeEscapeQuotes | src/utils.ts:231 | undoing the escapes gives back the command |
| Utils.PlatformExecWrapSupported | src/utils.ts:220-239 | a non-empty command wraps to a non-empty one exactly on supported platforms, and is kept unchanged on macOS, Linux and Windows with MSVC |
| Utils.Msys2WrapRoundTrip | src/utils.ts:230-231 | under MSYS2 the command becomes `msys2 -c "..."`; inside the quotes every quote is escaped, and unescaping gives back the command |
| Utils.MsysPackagePrefix | src/utils.ts:202-218 | the prefix is empty exactly for an MSYSTEM outside the five known ones; otherwise it starts with `mingw-w64-` and ends with `-` |
| Utils.SudoCommandWrap | src/utils.ts:250-252 | the command is kept as the suffix; `sudo ` is prepended exactly when the user id is not 0 |
| Utils.LineEnd | src/utils.ts:47 | `.+` extends to the first line terminator or the end of the output |
| Utils.FirstCacheDirMatch | src/utils.ts:47 | the leftmost position preceded by `cache_dir = ` and followed by a non-terminator, or none |
| Utils.ParseCacheDir | src/utils.ts:47 | the `-p` fallback fails (the non-null assertion throws) exactly when no position matches; otherwise it gives the trimmed rest of the line at the leftmost match |
| Utils.ParseCacheDirLine | src/utils.ts:45-47 | an output whose first `cache_dir = ` is followed by `dir` up to the end of its line gives the trimmed directory |
| Utils.ShowConfigLine | src/utils.ts:45-47 | a `ccache -p` line `(default) cache_dir = dir` gives the trimmed directory |
| Utils.CacheDirLineFound | src/utils.ts:47 | the leftmost match is right after the first label |
| Utils.MatchAfterLabel | src/utils.ts:47 | a label followed by something other than a line break is a match |
| Utils.NoEarlierCacheDirMatch | src/utils.ts:47 | no position before the first label matches |
| Utils.CacheDirLineEnd | src/utils.ts:47 | the matched text is the directory, up to the line end |
| Utils.CachePath | src/utils.ts:33-48 | with `--get-config` exit code 0 the trimmed output; otherwise the parse of `ccache -p` |
| Utils.FirstVersionMatch | src/utils.ts:138 | the leftmost occurrence of `version `, or none |
| Utils.ParseCcacheVersion | src/utils.ts:129-144 | empty on a non-zero exit code or without `version `; element 1 is always NaN, and so is every element from 37 on, because the index is passed as the radix |
| Utils.CcacheVersionMajor | src/utils.ts:138-143 | on output such as `ccache version 4.8.2`, element 0 is the major version number |
| Utils.MajorLine | src/utils.ts:137-143 | the text captured after the first `version ` is the major version followed by nothing, a dot or a space |
| Utils.LineStartsWithMajor | src/utils.ts:138 | the matched line starts with the major version, followed by nothing, a dot or a space |
| Utils.FirstVersionLabel | src/utils.ts:138 | `version ` after text without a `v` is found right there |
| Utils.MajorPiece | src/utils.ts:143 | the first dot-separated piece reads as the major version |
| Utils.MajorPieceShape | src/utils.ts:143 | that piece is the major version, alone or followed by a space |
| Utils.CcacheLookupCommand | src/utils.ts:58-75 | there is a lookup command exactly on supported platforms |
| Utils.CcacheBinaryPath.constructor | src/utils.ts:50 | the memo starts empty |
| Utils.CcacheBinaryPath.Get | src/utils.ts:51-78 | a non-empty memo is returned unchanged; an empty one is filled with the trimmed output of the platform's lookup command, or left empty on other platforms; the result is the memo |
| Utils.LookupTwice | src/utils.ts:50-78 | once a lookup has found the tool, a second lookup returns the same path whatever the command would now print |
| Post.AttemptKey | src/post.ts:93 | the primary key, `_` and the clock's reading in decimal. AttemptKeyRoundTrip states how it is read back |
| Post.KeyPrefix | src/post.ts:28 | the key up to its last `_`. AttemptKeyRoundTrip and KeyWithoutDelimiter state what it gives |
| Post.Timestamp | src/post.ts:45 | the text after the last `_` read by `parseInt` with radix 10. AttemptKeyRoundTrip and KeyWithoutDelimiter state what it gives |
| Post.AttemptKeyRoundTrip | src/post.ts:28-46 | the key family of an attempt key is its primary key, even when the primary key holds `_`; its timestamp reads back as the attempt's time |
| Post.KeyWithoutDelimiter | src/post.ts:28-45 | without any `_`, the key family drops the last character, and the whole key is read as the timestamp |
| Post.SaveFrom | src/post.ts:91-109 | the retry loop from attempt i on. SaveFromOutcome states its result |
| Post.FirstDecisive | src/post.ts:91-108 | the first attempt that is not a retried Error, or ten; every attempt before it was retried |
| Post.SaveFromOutcome | src/post.ts:91-109 | the loop ends at the first attempt that is not an Error: an upload returns true and stores that attempt's key; a non-Error is rethrown; ten Errors give false and store nothing |
| Post.SavedKeyRoundTrip | src/post.ts:93-98 | a successful save stores the key of its first successful attempt, taken within ten attempts; the reaper recovers the primary key and the attempt's time from it |
| Post.SaveStoresOnSuccess | src/post.ts:96-98 | a key is stored exactly when the save returns true, and it is longer than the primary key plus `_` |
| Post.RetriesThenSucceeds | src/post.ts:91-107 | n rejected uploads with n < 10, then one accepted: true, and the key of attempt n + 1 is stored |
| Post.AlwaysRejected | src/post.ts:91-109 | ten rejected uploads: false after exactly ten attempts, nothing stored |
| Post.SelectStale | src/post.ts:48-51 | the filter keeps at most the entries it is given |
| Post.SelectStaleMembers | src/post.ts:48-51 | an entry is kept exactly when it is listed and its timestamp is a number strictly below the stored key's |
| Post.SelectStaleAppend | src/post.ts:48-51 | the filter keeps listing order: it distributes over concatenation |
| Post.StaleSelectionIsSafe | src/post.ts:45-51 | the stored key, newer entries and entries without a numeric timestamp are never selected; two listed entries with the same timestamp text are selected together |
| Post.ReaperScenario | src/post.ts:45-51 | of entries stored at times 100, 200 and 300, with 300 just stored, the first two are selected |
| Post.SelectStaleOfThree | src/post.ts:48-51 | of three entries of which only the first two are stale, the filter keeps those two in order |
| Post.SelectStaleCons | src/post.ts:48-51 | the filter decides the first entry, then goes on with the rest |
| Post.SelectStaleOfOne | src/post.ts:48-51 | a listing of one stale entry keeps it |
| Post.ForeignFamilySelected | src/post.ts:28-51 | when the stored key's family is a proper prefix of another primary key, an older entry of that other family starts with the listed prefix and is selected, although its own family differs |
| Post.KeyExtendsPrimary | src/post.ts:28-36 | an attempt key starts with every prefix of its primary key, so a listing by that prefix returns it |
| Post.AttemptKeyStale | src/post.ts:45-50 | an attempt key is stale exactly when its time is below the stored time |
| Post.RemovedAfterGrows | src/post.ts:55-74 | later delete requests only append to `removedKeys` |
| Post.RemovedAfterCollects | src/post.ts:55-74 | a key is in `removedKeys` exactly when some accepted delete request reported it; rejected requests are skipped |
| Post.DeleteEach | src/post.ts:55-74 | one delete request per stale entry, in order; `removedKeys` is the concatenation of the accepted responses |
| Post.StatsCommand | src/post.ts:113-120 | `--show-stats`, with `--verbose --verbose` exactly when the major version is a number of at least 4 |
| Post.ShowStatsCommand | src/post.ts:113-120 | the statistics command wrapped for the platform. StatsCommand states its content |
| Post.PostState.constructor | src/post.ts:11 | `storedCacheKey` starts empty |
| Post.PostState.SaveCache | src/post.ts:81-111 | result and stored key as `SaveFrom` says; `storedCacheKey` changes only on success; attempt j uploads under the key built from the clock's reading j |
| Post.PostState.RemoveStaleCache | src/post.ts:13-79 | returns at once with no stored key; stops when listing fails; otherwise requests deletion of exactly the stale entries of the stored key's family, in listing order, and collects the keys reported |
| Post.PostState.Run | src/post.ts:122-153 | no operation on unsupported platforms; a failing statistics command ends the step; the store runs exactly when `store_cache` is on; the reaper runs exactly when `remove_stale_cache` is on and the store returned true; `storedCacheKey` changes only when the store returned true, and then it is the stored key; the reaper either finds the listing of that key's family failed, or deletes exactly its stale entries and collects the keys reported |
| Setup.SplitSetting | src/main.ts:46-48 | two pieces exactly when the line holds `=`; neither holds `=`; they are the line's start, joined by `=` |
| Setup.SplitSettingExact | src/main.ts:46-48 | a line with exactly one `=` splits into the text on either side of it |
| Setup.SplitSettingTruncates | src/main.ts:46 | the limit 2 drops everything from a second `=` on |
| Setup.SettingCommand | src/main.ts:46-50 | a command exactly for lines with `=`; it is `ccache --set-config "..."` with exactly one `=` inside the quotes |
| Setup.QuotedSetting | src/main.ts:49 | quoting `k=v` for `--set-config` leaves exactly one `=` between the quotes |
| Setup.CollectCommandsAppend | src/main.ts:45-51 | each line contributes its own command or none, in line order |
| Setup.SetConfigCommands | src/main.ts:44-51 | the set-config commands of the option lines, in order. SetConfigCommandsOfLine, SetConfigCommandsSkipsPlainLines and CollectCommandsAppend state its content |
| Setup.SetConfigCommandsOfLine | src/main.ts:45-51 | a line `key=value` gives exactly the command setting the trimmed key to the trimmed value |
| Setup.SettingCommandOfLine | src/main.ts:46-49 | the command of a `key=value` line, spelled out |
| Setup.SetConfigCommandsSkipsPlainLines | src/main.ts:45-51 | lines without `=` give no command |
| Setup.FirstFailure | src/main.ts:45-54 | the position of the first command that exits non-zero; every command before it succeeds |
| Setup.FirstFailureAt | src/main.ts:45-54 | when every command before k succeeds, the first failure is at k if command k fails, and later otherwise |
| Setup.RunLines | src/main.ts:45-51 | the loop succeeds exactly when every collected command succeeds, and runs the commands up to and including the first failure |
| Setup.CollectCommandsStep | src/main.ts:45-51 | the commands of one more line extend those before it and are a prefix of all of them |
| Setup.FirstFailureAppend | src/main.ts:45-54 | a failure among the first commands is the first failure of any longer list; otherwise the search goes on in the rest |
| Setup.FirstFailureAll | src/main.ts:45-54 | no failure is found exactly when all commands succeed |
| Setup.RunFailure | src/main.ts:45-54 | no error exactly when all commands succeed; otherwise the error names a listed command that failed |
| Setup.RunEndsAtFailure | src/main.ts:45-54 | a run that stopped reports, as its failure, the last command it ran |
| Setup.ConfigureCcache | src/main.ts:38-56 | runs the set-config commands in line order and then `ccache -p`, stopping at the first failure; it succeeds exactly when all of them do |
| Setup.CheckCcacheAvailability | src/main.ts:19-36 | NotFound exactly when `which` throws or gives an empty path; no error exactly when a path is found and `ccache --version` succeeds |
| Setup.RestoreRequest | src/main.ts:77-82 | the override key and the restore keys as the key builder gives them: a non-empty override is the primary key and an explicit list is the restore keys; the primary key is non-empty and there is at least one restore key; without an explicit list the first restore key is the primary key; with neither input every restore key is a prefix of the primary key |
| Setup.RestoreCache | src/main.ts:75-86 | throws exactly when there is no cache directory or the restore rejects; a hit exactly when the restored key is a non-empty string |
| Setup.BoolString | src/main.ts:144 | `"true"` exactly for true, otherwise `"false"` |
| Setup.PlannedSteps | src/main.ts:125-158 | the steps of main in order, each optional one gated by its input. PlanGates, PlanLayout and PlannedStepsFixed state its shape |
| Setup.PlanGates | src/main.ts:125-158 | each optional step is planned exactly when its input is on |
| Setup.PlanOutputOnce | src/main.ts:143-145 | the only output step carries the cache hit's string |
| Setup.PlannedStepsFixed | src/main.ts:135-158 | the check, the output, the configuration and the zeroing are always planned; the output carries the cache hit; the environment variables are set last |
| Setup.PlanLayout | src/main.ts:125-158 | the position of each step in the plan |
| Setup.PreludeLayout | src/main.ts:125-141 | the position of each step up to the restore; only package steps come before the check |
| Setup.FinishLayout | src/main.ts:143-158 | the position of each step from the output on |
| Setup.ExecFailure | src/main.ts:150 | `Exec.exec` rejects exactly when the command exits non-zero |
| Setup.PackagerCommand | src/main.ts:58-73 | `brew` on macOS, `sudo apt` on Linux, nothing elsewhere. PackagerFailure states how it decides the step |
| Setup.PackagerFailure | src/main.ts:58-73 | a package step with no command (Windows) never throws; otherwise it throws exactly when its command exits non-zero, and the failure names that command |
| Setup.RestoreFailure | src/main.ts:75-86 | the restore step throws exactly when restoreCache gives no result |
| Setup.Advance | src/main.ts:118-164 | taking the next planned step extends the prefix of the plan taken so far |
| Setup.Succeeded | src/main.ts:118-164 | a step that does not throw keeps the steps taken free of failures |
| Setup.FailedAt | src/main.ts:160-163 | a step that throws ends the run, and the run follows the plan up to it |
| Setup.FollowsConcat | src/main.ts:118-164 | a run of a whole first plan followed by a run of a second plan is a run of the two plans in sequence |
| Setup.Prepare | src/main.ts:125-141 | the package steps, the check and the restore, gated by their inputs and cut at the first that throws; after a clean run the cache hit is the restore's hit |
| Setup.Finish | src/main.ts:143-158 | the output, configuration, zeroing, optional path and variables steps, cut at the first that throws |
| Setup.Run | src/main.ts:118-164 | nothing happens exactly on unsupported platforms; otherwise the steps are the plan up to and including the first that throws, which becomes the failure; a completed run reports the restore's hit |
| Setup.PreludeStepsArePlanned | src/main.ts:118-141 | a failed run of the first phase is a failed run of the whole plan |
| Setup.CacheHitOffWithoutRestore | src/main.ts:137-145 | with `restore_cache` off no restore is planned and the output is `"false"` |
| Setup.StopsBy | src/main.ts:118-164 | a run stops at the latest at the first planned step that throws |
| Setup.NotFoundStopsSetup | src/main.ts:130-147 | without ccache on PATH setup fails by the check: it never restores, configures or zeroes statistics, and reports NotFound exactly when the check is the step that threw |

## Left out

- Logging: `Core.info`, `Core.warning`, `Core.group` and the text they print are not modelled. Neither is the message `setFailed` receives, except the not-found message.
- Process exit: the explicit `Process.exit(0)` at the end of the post step is not modelled.
- Cache paths: the `paths` argument of `Cache.saveCache` and `Cache.restoreCache`, and `Path.normalize` applied to it, are not modelled. The cache service is an oracle on keys.
- removeCcacheConfig and getCcacheConfigPath: not modelled. They delete a file (`FS.unlinkSync`), any error is silenced, and the configuration steps are modelled as if it did nothing.
- getCcacheSymlinksPath and getMsysInstallationPath: not modelled. They compute paths from the home directory, `brew --prefix` and `Path.normalize`. The steps that use the symlinks path are modelled as steps that do not throw.
- addSymlinksToPath and setOutputVariables: `getCcacheSymlinksPath` is called without `await`, so a promise is passed on. The model does not compute the path, so this is not captured.
- Utils.GetOverrideCacheKey: `Core.getInput` trims `override_cache_key`. The model takes the input as already trimmed.
- Utils.DefaultCacheKeys: `GITHUB_HEAD_REF!.length` throws a TypeError when the variable is not set. `Context.headRef` is a plain string, so that case is not modelled.
- Action inputs: `getMultilineInput` and `getBooleanInput` are not modelled. Inputs are given as the list of lines and as booleans, so an invalid boolean input that would throw is not covered.
- Post.PostState.RemoveStaleCache: the listing is one oracle answer for the key family. Paging, the repository, ref and sort parameters of the REST request, and the response's JSON shape are not modelled.
- Post.PostState.Run: ccache's path, version and the outcome of the statistics command are parameters. A throw from `getCcacheVersion` and a non-zero exit of `--show-stats` are folded into one flag. `getCachePath` is a parameter (`cachePath`) rather than a call of `Utils.CachePath`.
- Utils.ParseCcacheVersion: its branch for a non-zero exit code is kept as written, but it cannot be reached. `getExecOutput` is called without `ignoreReturnCode`, so it throws first, and that throw is the one folded into the flag above.
- Setup.Run: `getCachePath` is a parameter (`Services.cachePath`) rather than a call of `Utils.CachePath`. Exec errors are modelled as `ExecFailed(command)`, not as their messages.
- Number precision: `Date.now()` and parsed timestamps are unbounded integers. JavaScript's loss of precision beyond 2^53 is not modelled.
