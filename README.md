# AI Roofing Agent: a verified model of its core

This project is a Dafny model of the core of the AI Roofing Agent services, with proofs about that model. The core has six parts.

- **The save-bom patch script** (`save_bom/patch_main.py`). It edits the save-bom service's `main.py` in place. A `Patcher` object holds the original text, the working text and the ordered change log. The script applies a fixed sequence of steps to them:
  - `ensure_import` and `ensure_helper`;
  - `patch_job_slug`;
  - `insert_before`, for the four header seedings and the Summary locals;
  - `replace_block`, for the Summary dict;
  - three global rewrites of the Master sheet code.

  At the end it writes a backup and the new file, but only when the text changed.
- **The distributor finder** (`find_distributors/main.py`). It takes a ZIP code and looks up the ZIP centroid. It gathers the distributor sheets for the requested type and annotates each record with its distance. It then returns the three nearest records, using a stable sort.
- **Three Dialogflow CX webhook wrappers**: `calculate_materials`, `find_distributors` and `save_bom`. Each wrapper:
  - walks the request body for the tag and the session parameters;
  - rejects foreign tags and a missing service URL;
  - makes at most the outbound requests its guards allow;
  - shapes the reply and the session parameters.
- **The `calculate-materials` backend** (`calculate_materials/main.py`). It decodes its configuration safely. Its `/calculate` endpoint resolves the selections against the defaults and echoes the measurements back.

Module layout:
- `Wrappers`: Option and Result.
- `TextUtil`: Python string operations.
- `Json`: decoded JSON values, Python truthiness, `str()` and the `_get` path walk.
- `PatchEdits` and `PatchBlocks`: each patch step as a function from the text to the new text and its log entries.
- `PatchMain`: the imperative script, with the class `Patcher`, a method per step and the driver.
- `FindDistributors`, `Webhook`, `CalcWrapper`, `FindWrapper`, `SaveWrapper` and `CalculateMaterials`.

Modelling conventions:
- **Regular-expression searches** are oracles (`Search`). Each returns the first match of one fixed pattern in a text. The only thing assumed about a search is that its match lies inside the text.
- **Floats, `float()`, `round` and the haversine distance** are oracle parameters.
- **An unhandled Python exception** (HTTP 500) is the reply `Crash`.
- **Outbound requests** become `Call` values. Their results are passed in as `Result` parameters.

## Model

| member | source | states |
|---|---|---|
| TextUtil.RStrip | save_bom/patch_main.py:28 | `s.rstrip()` is the longest prefix of `s` whose remaining suffix is all whitespace; it does not end in whitespace |
| TextUtil.LStrip | save_bom/patch_main.py:29 | `s.lstrip()` is the longest suffix after an all-whitespace prefix; it does not start with whitespace |
| TextUtil.LeadingSpace | save_bom/patch_main.py:80 | what `^(\s*)` captures: an all-whitespace prefix followed by a non-space character or the end of the text |
| TextUtil.RStripSplits | save_bom/patch_main.py:28-29 | a right-stripped string is its leading whitespace followed by its fully stripped form |
| TextUtil.StripOffset | save_bom/patch_main.py:46 | `s.strip()` lies inside `s.rstrip()`, after its leading whitespace |
| TextUtil.RStripIdempotent | save_bom/patch_main.py:28 | right-stripping twice is right-stripping once |
| TextUtil.NonSpaceInsideRStrip | save_bom/patch_main.py:28 | every non-whitespace character of `s` survives in `s.rstrip()` at the same offset |
| TextUtil.LineStartBefore | save_bom/patch_main.py:48 | `text.rfind("\n", 0, end) + 1` is at or before `end`, is 0 or follows a newline, and no newline lies between it and `end` |
| TextUtil.JoinSnoc | ai_roofing_archive/20250905T192517Z/calculate_materials_wrapper/main.py:125 | `"\n".join` of one more part adds one separator and that part at the end |
| Json.LookupFinds | ai_roofing_archive/20250905T192517Z/calculate_materials_wrapper/main.py:24-26 | a key is found in a dict exactly when some entry carries it, and what is found is stored under it |
| Json.LookupAt | calculate_materials/main.py:50-63 | the entry of a dict literal whose key no earlier entry repeats is what a lookup of that key finds |
| Json.LookupAppend | ai_roofing_archive/20250905T192517Z/find_distributors_wrapper/main.py:69-73 | a lookup in two lists of entries one after the other finds the key in the first list that holds it |
| Json.PutLookup | ai_roofing_archive/20250905T192517Z/find_distributors_wrapper/main.py:69-73 | after `d[key] = v`, `key` holds `v` and every other key holds what it held before |
| Json.PutFresh | ai_roofing_archive/20250905T192517Z/find_distributors_wrapper/main.py:69-73 | assigning a key the dict does not hold appends the entry at the end, keeping insertion order |
| Json.UpdateFresh | ai_roofing_archive/20250905T192517Z/find_distributors_wrapper/main.py:69-73 | `d.update(entries)` with distinct keys that `d` does not hold appends the entries in order |
| Json.NatToDecimal | ai_roofing_archive/20250905T192517Z/find_distributors_wrapper/main.py:67 | `str(n)` of a natural number is a non-empty string of decimal digits |
| Json.GetPath | ai_roofing_archive/20250905T192517Z/calculate_materials_wrapper/main.py:21-27 | the `_get` loop returns the value the path reaches, or `default` as soon as a step is not a dict or lacks the key; the empty path returns `d` |
| Json.ResolveAppend | ai_roofing_archive/20250905T192517Z/save_bom_wrapper/main.py:15-21 | walking `p + q` is walking `p`, then walking `q` from where `p` ended |
| Json.WalkStopsAtFailedStep | ai_roofing_archive/20250905T192517Z/find_distributors_wrapper/main.py:17-23 | once a step meets a non-dict or a missing key, `_param` returns the default whatever the rest of the path |
| Json.WalkNest | ai_roofing_archive/20250905T192517Z/save_bom_wrapper/main.py:15-21 | `_get` finds a value nested under the same path |
| PatchEdits.Splice | save_bom/patch_main.py:28 | `t[:at] + s + t[at:]` is as long as `t` and `s` together |
| PatchEdits.SplicedLineIsPresent | save_bom/patch_main.py:24-28 | a line inserted at a line start is found by the `^\s*X\s*$` import check |
| PatchEdits.ImportPoint | save_bom/patch_main.py:26-27 | the insertion point after the last import line is a line start inside the text, or 0 |
| PatchEdits.EnsureImportEdit | save_bom/patch_main.py:22-29 | no change and no log when a line already equals the stripped import; otherwise `line.rstrip()` plus a newline goes in after the last import line and exactly one `+ import: …` entry is logged; either way the import is present afterwards |
| PatchEdits.EnsureImportIdempotent | save_bom/patch_main.py:22-29 | a second `ensure_import` of the same line changes nothing and logs nothing |
| PatchEdits.AnchorStart | save_bom/patch_main.py:35-36 | the start of the first `app = FastAPI()` match, or 0, lies inside the text |
| PatchEdits.HelperBlock | save_bom/patch_main.py:37 | the spliced block is a newline, the stripped code, then a blank line |
| PatchEdits.EnsureHelperEdit | save_bom/patch_main.py:31-38 | no change and no log when a `def name(` header exists; otherwise the text before the bootstrap match (offset 0 without one) is kept, the helper block follows it, and the rest of the text follows the block; at most one entry is logged, `+ helper: name()`, and exactly when the helper was missing, which is exactly when the text changed |
| PatchEdits.EnsureHelperDefines | save_bom/patch_main.py:31-38 | when the helper's code defines `name`, `name` is defined after `ensure_helper` |
| PatchEdits.HelperBlockCarriesHeader | save_bom/patch_main.py:37 | a helper block spliced in anywhere brings its `def name(` header into the text |
| PatchEdits.HelperEditSplices | save_bom/patch_main.py:35-38 | with the helper missing and the bootstrap line found, the step is exactly a splice at that line plus one log entry |
| PatchEdits.EnsureHelperIdempotent | save_bom/patch_main.py:31-38 | a helper whose code defines it is added at most once |
| PatchEdits.HelperEditAtTop | save_bom/patch_main.py:35-37 | a missing helper without a bootstrap line goes in front of the whole text |
| PatchEdits.HelpersStayInCallOrder | save_bom/patch_main.py:31-38 | three `ensure_helper` calls for missing helpers leave all three blocks above the bootstrap line, in call order, and log three entries in that order, provided the bootstrap line is found again after each of the first two helpers within the block just inserted |
| PatchEdits.HelpersWithoutAnchorReverse | save_bom/patch_main.py:31-38 | without a bootstrap line, three `ensure_helper` calls put the three blocks in front of the text in reverse call order |
| PatchEdits.ContextBefore | save_bom/patch_main.py:45 | the context is the at most 300 characters that end at the match start |
| PatchEdits.InsertBeforeEdit | save_bom/patch_main.py:40-52 | no change when the anchor is absent or `insert.strip()` occurs in the context; otherwise `insert.rstrip()` plus a newline goes in at the start of the anchor's line; `+ label` is logged exactly when the text changed |
| PatchEdits.InsertBeforeGuardsDecide | save_bom/patch_main.py:43-52 | the step logs nothing exactly when one of its two guards fires |
| PatchEdits.InsertBeforeSplices | save_bom/patch_main.py:43-52 | when the anchor is found and `insert.strip()` is not in its context, the new text is the old one with `insert.rstrip()` and a newline spliced in at the anchor's line start, and the log is exactly `+ label` |
| PatchEdits.InsertBeforeCaretGoesToTop | save_bom/patch_main.py:152-157 | with a `^` pattern searched without `re.M`, as for the Summary locals, the step either changes nothing or puts its text at the very top of the file |
| PatchEdits.InsertBeforeIdempotent | save_bom/patch_main.py:40-52 | a second `insert_before` after an insertion is a no-op, when the anchor is found again where the insertion moved it and the inserted text fits in the 300-character context |
| PatchEdits.InsertedTextInContext | save_bom/patch_main.py:45-49 | after the insertion, the stripped text lies in the 300 characters before the moved anchor |
| PatchBlocks.Replace | save_bom/patch_main.py:64 | `t[:lo] + s + t[hi:]` has the length of `t` less the cut plus `s` |
| PatchBlocks.ReplaceParts | save_bom/patch_main.py:64 | a replacement keeps the prefix, holds `s` at `lo`, and continues with the text that followed `hi` |
| PatchBlocks.FindBlock | save_bom/patch_main.py:56-63 | no block when the start match is missing or the end match is missing after it; otherwise the cut points, with the end match searched in the text after the start match |
| PatchBlocks.ReplaceBlockEdit | save_bom/patch_main.py:54-67 | as written: no change when a match is missing; otherwise the text before the start match is kept, `new_block.rstrip()` follows it, and everything from the START of the end match to the end of the text follows the block, so the end match's own text comes right after the new block; `~ label` is logged exactly when the text changed |
| PatchBlocks.ReplaceBlockRepeatGrows | save_bom/patch_main.py:54-67 | as written the step is not idempotent: when a second run finds the new block again at the same offset and its own closing line as the end match (which needs the old closer to stand on a line of its own), the text grows by the end match and the step logs again |
| PatchBlocks.ReplaceBlockRepeatCuts | save_bom/patch_main.py:54-67 | when instead the second run's end match lies past the new block (as when the old closer was glued onto the new block's last line), the second run deletes everything between the new block and that match and logs again |
| PatchBlocks.ReplaceBlockKeepsOldCloser | save_bom/patch_main.py:159-179 | on a concrete `summary = {` dict the old closing line survives after the new block's own closing brace |
| PatchBlocks.ReplaceThroughEndEdit | save_bom/patch_main.py:54-67 | the corrected step: the block through the END of the end match is replaced |
| PatchBlocks.ReplaceThroughEndFixesCloser | save_bom/patch_main.py:159-179 | on the same dict the corrected step leaves the new block followed by the rest of the function |
| PatchBlocks.SummaryLocalsMissed | save_bom/patch_main.py:151-157 | as written: on a fragment whose `summary = {` dict sits indented inside a function, the caret search without `re.M` finds nothing, so the locals the new dict reads are never inserted and nothing is logged |
| PatchBlocks.SummaryLocalsInserted | save_bom/patch_main.py:151-157 | corrected: with `re.M` the same step puts the four locals on their own lines right above the `summary = {` line and logs its entry |
| PatchBlocks.ReplaceThroughEndIdempotent | save_bom/patch_main.py:54-67 | the corrected step run again on its output changes nothing and logs nothing |
| PatchBlocks.SlugWindow | save_bom/patch_main.py:74 | the body is the at most 6000 characters after the header match, shorter only at the end of the text |
| PatchBlocks.JobSlugBlock | save_bom/patch_main.py:81-86 | the new block is four lines, each carrying the matched line's indentation |
| PatchBlocks.JobSlugBlockShape | save_bom/patch_main.py:81-86 | the block starts with the indentation and ends with the indented new `job_slug` assignment |
| PatchBlocks.SlugMatch | save_bom/patch_main.py:75-78 | the `job_slug` line match, or the broader fallback match when the first finds nothing |
| PatchBlocks.SlugSite | save_bom/patch_main.py:71-79 | no site when the header or both line searches fail; otherwise the matched line lies inside the 6000-character window after the header |
| PatchBlocks.SlugRewriteParts | save_bom/patch_main.py:87-88 | the rewrite keeps the text before and after the matched line and holds the block between |
| PatchBlocks.WindowRewriteReplaces | save_bom/patch_main.py:87-88 | rebuilding the text around the rewritten window is one replacement of the matched line in the whole text |
| PatchBlocks.JobSlugEdit | save_bom/patch_main.py:69-91 | no change when a search fails; `~ job_slug -> _slug(addr)` is logged exactly when the text changed |
| PatchBlocks.JobSlugNewText | save_bom/patch_main.py:87-88 | the text is unchanged when a search fails |
| PatchBlocks.JobSlugEditAt | save_bom/patch_main.py:87-88 | once both searches match, the new text is the matched line replaced by the block |
| PatchBlocks.JobSlugKeepsOutside | save_bom/patch_main.py:71-91 | only the matched line, inside the window after the header, is rewritten; the text before and after it is unchanged |
| PatchBlocks.JobSlugRepeatGrows | save_bom/patch_main.py:75-91 | the step is not idempotent: when a second run matches the block's own `job_slug` line, the text grows by three lines and the step logs again |
| PatchBlocks.NewSlugAssignUnindented | save_bom/patch_main.py:85 | the script's new assignment line starts with a non-space character |
| PatchBlocks.RewriteEdit | save_bom/patch_main.py:182-216 | a Master rewrite always logs its entry, whether or not the substitution changed anything |
| PatchBlocks.CommitPlan | save_bom/patch_main.py:219-229 | nothing is written when the text is unchanged; otherwise the original goes to the backup first and the new text to main.py second |
| PatchMain.Patcher.constructor | save_bom/patch_main.py:18-20 | a run starts with the working text equal to the original file and an empty change log |
| PatchMain.Patcher.EnsureImport | save_bom/patch_main.py:22-29 | the buffer becomes the import edit of the old buffer and the log gains its entries; afterwards the import line is present |
| PatchMain.Patcher.EnsureHelper | save_bom/patch_main.py:31-38 | the buffer becomes the helper edit of the old buffer and the log gains its entries; the helper is defined afterwards when its code defines it |
| PatchMain.Patcher.InsertBefore | save_bom/patch_main.py:40-52 | the buffer and log follow `InsertBeforeEdit` of the old buffer |
| PatchMain.Patcher.ReplaceBlock | save_bom/patch_main.py:54-67 | the buffer and log follow `ReplaceBlockEdit`, the step as written |
| PatchMain.Patcher.PatchJobSlug | save_bom/patch_main.py:69-91 | the buffer and log follow `JobSlugEdit` |
| PatchMain.Patcher.Rewrite | save_bom/patch_main.py:182-193 | one substitution of the buffer, and its entry appended to the log |
| PatchMain.Patcher.Commit | save_bom/patch_main.py:218-222 | no writes exactly when the text equals the original; otherwise the backup of the original, then the live file |
| PatchMain.ScriptNamesOk | save_bom/patch_main.py:98-132 | the three helper names the script passes are identifiers |
| PatchMain.ImportStepsLog | save_bom/patch_main.py:93-95 | the import section logs at most two entries |
| PatchMain.HelperStepsLog | save_bom/patch_main.py:97-132 | the helper section logs at most three entries |
| PatchMain.HelperStepsInCallOrder | save_bom/patch_main.py:97-132 | on a text without the three helpers whose bootstrap line is found again after each of the first two, `_slug`, `_parse_city_state` and `_seed_headers` end up above that line in call order, and the section logs exactly their three entries in order |
| PatchMain.HelperStepsWithoutAnchor | save_bom/patch_main.py:97-132 | on a text without a bootstrap line, the section puts the three helpers at the top of the file in reverse call order, in front of the original text |
| PatchMain.SeedStepsLog | save_bom/patch_main.py:137-149 | the seeding section logs at most four entries |
| PatchMain.SummaryStepsLog | save_bom/patch_main.py:151-179 | the Summary section logs at most two entries |
| PatchMain.MasterStepsLog | save_bom/patch_main.py:181-216 | the Master section logs exactly its three entries, in order |
| PatchMain.PatchAllLog | save_bom/patch_main.py:93-216 | a run's change log has 3 to 15 entries and always ends with the three Master entries |
| PatchMain.ImportSection | save_bom/patch_main.py:93-95 | the object's buffer and log follow the import section's spec |
| PatchMain.HelperSection | save_bom/patch_main.py:97-132 | the object's buffer and log follow the helper section's spec |
| PatchMain.SeedSection | save_bom/patch_main.py:137-149 | the object's buffer and log follow the seeding section's spec |
| PatchMain.SummarySection | save_bom/patch_main.py:151-179 | the object's buffer and log follow the Summary section's spec |
| PatchMain.MasterSection | save_bom/patch_main.py:181-216 | the object's buffer and log follow the Master section's spec |
| PatchMain.Run | save_bom/patch_main.py:14-229 | a missing main.py exits with the error message before any read or write; otherwise the writes are the commit plan of the fully patched text and the log is the run's change log |
| PatchMain.PatchMainPy | save_bom/patch_main.py:14-229 | `Run` with the script's own names and job_slug lines |
| FindDistributors.OrAll | find_distributors/main.py:60 | `x or "all"` is never empty and is `x` when `x` is a non-empty string |
| FindDistributors.Lower | find_distributors/main.py:60 | `lower()` maps each character, keeping the length |
| FindDistributors.LowerIsWord | find_distributors/main.py:60-64 | lower-casing gives a lower-case word exactly when the string spells it in any case |
| FindDistributors.SheetNamesCases | find_distributors/main.py:59-65 | "commercial" in any case gives the Commercial sheet, "retail" gives HD then Lowes, anything else gives all three |
| FindDistributors.FirstZipRow | find_distributors/main.py:76-77 | the found index is the first row whose ZIP string matches; none means no row matches |
| FindDistributors.ZipTargetIsFirstRow | find_distributors/main.py:76-82 | the target comes from the first matching row only, and rows after it never change it |
| FindDistributors.GatheredAppend | find_distributors/main.py:88-90 | gathering two sheet lists one after the other gathers their records in that order |
| FindDistributors.GatheredRetail | find_distributors/main.py:88-90 | the retail type gathers the HD records followed by the Lowes records |
| FindDistributors.AnnotatedAppend | find_distributors/main.py:94-105 | annotation keeps the record order across concatenation |
| FindDistributors.AnnotatedOne | find_distributors/main.py:94-105 | a record whose coordinates do not parse yields nothing; any other yields exactly its own entry |
| FindDistributors.AnnotatedLength | find_distributors/main.py:94-105 | no record yields more than one entry |
| FindDistributors.Insert | find_distributors/main.py:107 | insertion adds exactly the one entry |
| FindDistributors.InsertSorted | find_distributors/main.py:107 | inserting into a list sorted by miles keeps it sorted |
| FindDistributors.SortByMiles | find_distributors/main.py:107 | the sort is a permutation of its input |
| FindDistributors.SortByMilesSorted | find_distributors/main.py:107 | the sort's result is ordered by `distance_miles` |
| FindDistributors.InsertAtMiles | find_distributors/main.py:107 | insertion puts a new entry before the entries at its own distance |
| FindDistributors.SortByMilesStable | find_distributors/main.py:107 | the sort is stable: entries at the same distance keep their input order |
| FindDistributors.TopThree | find_distributors/main.py:107 | the result holds `min(3, n)` entries |
| FindDistributors.TopThreeRanks | find_distributors/main.py:107 | the top three are sorted, none is farther than any entry left out, and together with the rest they are a permutation of the input, and entries at the same distance keep their input order |
| FindDistributors.LookupZip | find_distributors/main.py:75-82 | the ZIP loop's target is the coordinates of the first matching row, or none |
| FindDistributors.GatherRecords | find_distributors/main.py:87-90 | the loop's records are the named sheets' records, sheet after sheet |
| FindDistributors.DistanceList | find_distributors/main.py:93-105 | the loop keeps one entry per record that parses, in order, and skips the others |
| FindDistributors.Find | find_distributors/main.py:67-108 | an unknown ZIP gives the 404 detail; otherwise the answer echoes the ZIP and type and holds the top three entries |
| Webhook.TextReplyReads | ai_roofing_archive/20250905T192517Z/save_bom_wrapper/main.py:62 | a text reply reads back as its message |
| Webhook.ReadRequest | ai_roofing_archive/20250905T192517Z/save_bom_wrapper/main.py:26-27 | the tag is `_get(body, [fulfillmentInfo, tag], "")` and the parameters `_get(body, [sessionInfo, parameters], {}) or {}` |
| Webhook.ParamsDefault | ai_roofing_archive/20250905T192517Z/calculate_materials_wrapper/main.py:48 | missing or falsy parameters read as `{}` |
| CalcWrapper.SplitBucket | ai_roofing_archive/20250905T192517Z/calculate_materials_wrapper/main.py:37-38 | the bucket holds no `/`; with a `/`, bucket, `/` and blob rebuild the path; without one, the blob is empty |
| CalcWrapper.SplitBucketOf | ai_roofing_archive/20250905T192517Z/calculate_materials_wrapper/main.py:36-38 | a `gs://bucket/blob` URI splits back into its bucket and blob |
| CalcWrapper.PdfSourceCases | ai_roofing_archive/20250905T192517Z/calculate_materials_wrapper/main.py:29-42 | a truthy report URL is fetched over HTTP; otherwise a `gs://` URI is downloaded from its bucket and blob; otherwise the no-source error |
| CalcWrapper.BackendItemsCases | ai_roofing_archive/20250905T192517Z/calculate_materials_wrapper/main.py:93-100 | the items are `calculated_bom`, else `bom` for a dict answer, the list itself for a list answer, and falsy for anything else |
| CalcWrapper.Labels | ai_roofing_archive/20250905T192517Z/calculate_materials_wrapper/main.py:109-117 | one label per item, each the label of that item |
| CalcWrapper.LabelFallbacks | ai_roofing_archive/20250905T192517Z/calculate_materials_wrapper/main.py:110-116 | the name falls back Product, product, name, then "Item"; a falsy quantity falls through the `or` chain, and no quantity part is added when it ends in None |
| CalcWrapper.SessionParamsKeys | ai_roofing_archive/20250905T192517Z/calculate_materials_wrapper/main.py:120-122 | `bom_items` is always present; `zip-code` (stringified) and `job_address` are present exactly when truthy |
| CalcWrapper.AfterGuardsCalls | ai_roofing_archive/20250905T192517Z/calculate_materials_wrapper/main.py:56-86 | no source means a prompt and no request; at most two requests, the first the load of the chosen source, the second the POST of those bytes |
| CalcWrapper.BomReplyText | ai_roofing_archive/20250905T192517Z/calculate_materials_wrapper/main.py:124-127 | the reply's text is the header and the labels joined by newlines |
| CalcWrapper.BomReplyParams | ai_roofing_archive/20250905T192517Z/calculate_materials_wrapper/main.py:124-127 | the reply carries the session parameters under `sessionInfo.parameters` |
| CalcWrapper.BuildLine | ai_roofing_archive/20250905T192517Z/calculate_materials_wrapper/main.py:110-117 | one loop body's label is that item's label |
| CalcWrapper.BuildLines | ai_roofing_archive/20250905T192517Z/calculate_materials_wrapper/main.py:108-117 | the lines are the header followed by one label per item, in order; the loop raises when an item is not a dict |
| CalcWrapper.Handle | ai_roofing_archive/20250905T192517Z/calculate_materials_wrapper/main.py:44-127 | a foreign tag gets only "Unhandled tag"; a missing URL gets the misconfig message; otherwise the guarded flow |
| FindWrapper.ZipFallback | ai_roofing_archive/20250905T192517Z/find_distributors_wrapper/main.py:30 | the ZIP is the first truthy of `zip-code`, `zip` and `zipcode` |
| FindWrapper.RowLineCases | ai_roofing_archive/20250905T192517Z/find_distributors_wrapper/main.py:64-67 | a row that is not a dict raises; numeric-looking miles add ` — x.xx mi` or raise in `float`; other miles add nothing |
| FindWrapper.DistKeyInjective | ai_roofing_archive/20250905T192517Z/find_distributors_wrapper/main.py:69-73 | `dist_<i>_<field>` keys for single-digit rows are distinct for distinct rows or fields |
| FindWrapper.LinesOfRows | ai_roofing_archive/20250905T192517Z/find_distributors_wrapper/main.py:63-67 | the loop yields lines exactly when every row renders, one per row, numbered from 1 |
| FindWrapper.ChipsAt | ai_roofing_archive/20250905T192517Z/find_distributors_wrapper/main.py:68 | one chip per row, in order: the row's name |
| FindWrapper.RowEntriesLookup | ai_roofing_archive/20250905T192517Z/find_distributors_wrapper/main.py:69-73 | a row's update holds `dist_<i>_*` with its values exactly for its own number |
| FindWrapper.OutParamsKeys | ai_roofing_archive/20250905T192517Z/find_distributors_wrapper/main.py:62-73 | `out_params` holds three entries per row, `dist_<i>_name/address/miles` with row `i`'s values, and no such key beyond the last row |
| FindWrapper.LinesNumbered | ai_roofing_archive/20250905T192517Z/find_distributors_wrapper/main.py:67 | each line starts with its number, the row's name and its address |
| FindWrapper.LinesNone | ai_roofing_archive/20250905T192517Z/find_distributors_wrapper/main.py:63-67 | once a row raises, the whole loop raises |
| FindWrapper.RowText | ai_roofing_archive/20250905T192517Z/find_distributors_wrapper/main.py:64-68 | one loop body's line and chip are that row's line and name |
| FindWrapper.UpdateRow | ai_roofing_archive/20250905T192517Z/find_distributors_wrapper/main.py:69-73 | each `out_params.update` appends the row's three fresh keys after those of earlier rows |
| FindWrapper.RenderRows | ai_roofing_archive/20250905T192517Z/find_distributors_wrapper/main.py:61-73 | the loop builds the lines, chips and `out_params` of `Render`, or raises as it does |
| FindWrapper.RenderTop | ai_roofing_archive/20250905T192517Z/find_distributors_wrapper/main.py:63 | only the first `min(3, n)` rows are rendered |
| FindWrapper.AnswerRenders | ai_roofing_archive/20250905T192517Z/find_distributors_wrapper/main.py:57-83 | a list answer whose first three rows render gets the header, their lines, chips and `out_params` |
| FindWrapper.TopRowsShown | ai_roofing_archive/20250905T192517Z/find_distributors_wrapper/main.py:61-73 | exactly `min(3, n)` chips, in row order, and `dist_<i>_*` exactly for `i = 1..min(3, n)` |
| FindWrapper.AnswerCases | ai_roofing_archive/20250905T192517Z/find_distributors_wrapper/main.py:57-59 | an empty list or a dict with falsy `results` gets "No nearby distributors found"; neither list nor dict, or a failing row, raises |
| FindWrapper.Handle | ai_roofing_archive/20250905T192517Z/find_distributors_wrapper/main.py:25-83 | parameters that are not a dict raise before any guard; then tag, misconfig, missing ZIP, request error and the answer, in that order |
| FindWrapper.AfterGuardsCalls | ai_roofing_archive/20250905T192517Z/find_distributors_wrapper/main.py:38-51 | exactly one request when the ZIP is truthy and none otherwise; its payload is exactly `{"zip_code": str(zip)}` |
| SaveWrapper.JobAddressFallback | ai_roofing_archive/20250905T192517Z/save_bom_wrapper/main.py:36 | the job address falls back job_address, address, zip-code, then "Unknown Job", and is always truthy |
| SaveWrapper.BomItemsFallback | ai_roofing_archive/20250905T192517Z/save_bom_wrapper/main.py:35 | the items are `bom_items` when truthy; they are truthy exactly when `bom_items` is |
| SaveWrapper.SavePayloadKeys | ai_roofing_archive/20250905T192517Z/save_bom_wrapper/main.py:43 | the payload has exactly the keys `job_address` and `bom_items`, with the given values |
| SaveWrapper.AnswerCount | ai_roofing_archive/20250905T192517Z/save_bom_wrapper/main.py:60-62 | a missing or falsy `saved` reads as 0, a truthy one as itself, and the job address is quoted; an answer that is not a dict raises |
| SaveWrapper.AfterGuardsCalls | ai_roofing_archive/20250905T192517Z/save_bom_wrapper/main.py:35-58 | a request goes out exactly when the parameters hold truthy `bom_items`, and it is the one POST of the payload; without items the user is prompted; a failed POST gives "Save failed" |
| SaveWrapper.Handle | ai_roofing_archive/20250905T192517Z/save_bom_wrapper/main.py:23-62 | a foreign tag gets only "Unhandled tag" and a missing URL the misconfig message, both before any request; otherwise the guarded flow |
| CalculateMaterials.SafeJsonCases | calculate_materials/main.py:10-15 | an unset or empty value and invalid JSON read as `{}`; anything else reads as what it decodes to |
| CalculateMaterials.DefaultsWithoutConfig | calculate_materials/main.py:17-18 | without a decodable configuration the defaults are `{}` |
| CalculateMaterials.ChosenFallback | calculate_materials/main.py:40-41 | the selection's truthy value wins, then a truthy default, then the built-in name; the source is the selection's own whenever it has one, else "default" |
| CalculateMaterials.VentilationRawAt | calculate_materials/main.py:48 | exactly one `{key, value, source: "input"}` per openings entry, at the same position |
| CalculateMaterials.CalculateCrashes | calculate_materials/main.py:35-62 | the request fails exactly when a value it reads through is not a dict or `float` raises on the waste value |
| CalculateMaterials.ResponseKeys | calculate_materials/main.py:50-63 | each key of the response finds the value written under it |
| CalculateMaterials.CalculateEchoes | calculate_materials/main.py:44-62 | `job_address` and `zip_code` are echoed unchanged; `geometry`, `linears` and `openings` too, with falsy values as `{}`; `bom_items` is empty; `ventilation_raw` follows the openings; the waste is `float` of the configured value, 3.0 by default |
| CalculateMaterials.CalculateSelections | calculate_materials/main.py:36-56 | the system and shingle color selections carry the chosen value and the source |

## Left out

- The Python `re` engine is not modelled. Each fixed pattern is an oracle, and only the bounds of its match are assumed. The three global `re.sub` rewrites of the Master code (save_bom/patch_main.py:182-216) are opaque functions; their unconditional log entries are modelled.
- The helper bodies `_slug`, `_parse_city_state` and `_seed_headers` are not modelled. Neither are the seeded header lists or the Summary locals and dict. They are string payloads inserted into another file, so they appear only as parameters.
- File I/O, the timestamped backup name, `print` and `sys.exit` are modelled as the writes a run makes and the message it exits with. The console output is left out.
- Floating point is left out. That covers the haversine distance, `round(…, 2)`, `float()` and `f"{x:.2f}"`. Each is an oracle parameter, and floats are carried as their printed form.
- Network and cloud services are outside the model: HTTP, Cloud Storage, Google Sheets access, ID-token fetching and `Authorization` headers. Their results are parameters. The token fetch cannot change a reply, because its failure is ignored.
- The helper-definition check (`PatchEdits.DefinesHelper`) treats only ASCII letters, digits and `_` as word characters for `\w` and `\b`. In Python 3, `\w` on `str` also matches other Unicode letters and digits, so the check can differ when such a character comes right before `def`.
- `FindDistributors.Lower`: only the ASCII letters are lower-cased. Python's `str.lower` covers all of Unicode.
- `Json.PyStr`: `str()` of a list or dict is written as the empty string. Python's `repr` of containers is not modelled.
- Entries whose `distance_miles` is NaN are not modelled. The model sorts by a real number.
- JSON objects are ordered lists of entries. Duplicate keys in a decoded body are not modelled.
- The FastAPI and pydantic plumbing is left out: routing, request validation and the `/`, `/healthz` and `/__health` health endpoints.
- save_bom/main.py is not part of this model.
- `FindWrapper.RenderRows`: its `out_params` proof requires at most 9 rows, so that `dist_<i>_*` keys stay distinct. The handler renders at most 3.

## Findings

| source | as written | input that shows it | evidently intended | confidence | as-written member | corrected member |
|---|---|---|---|---|---|---|
| save_bom/patch_main.py:54-67, 159-179 | `replace_block` cuts at the START of the end match, so the old closing `}` line stays after the new block, which brings its own `}` | a `summary = {` dict whose closing line is `    }`: the patched text is the new dict's `    }` followed by the old `    }` | replace the block through the END of the end match, so the new dict takes the old one's place and a second run changes nothing | not executed | PatchBlocks.ReplaceBlockKeepsOldCloser | PatchBlocks.ReplaceThroughEndFixesCloser |
| save_bom/patch_main.py:151-157 | the Summary-locals anchor `^\s*summary\s*=\s*\{` is searched without `re.M`, so `^` holds only at offset 0 and the pattern cannot find the `summary = {` line inside a function; the locals are then never inserted, while the new Summary dict (lines 161-177) reads `city`, `state`, `created_by`, `status` and `created_at_local` | a `def build_summary(payload):` function whose body opens with `    summary = {`: the search finds nothing and the text is unchanged | search with `re.M`, so that the locals go in right above the `summary = {` line | not executed | PatchBlocks.SummaryLocalsMissed | PatchBlocks.SummaryLocalsInserted |
