/**
  The patch script for the save-bom service's `main.py`: one run keeps the
  original text, the working text and the ordered change log, applies a
  fixed sequence of textual edits, and writes a backup and the new text
  only when something changed.
 */
module PatchMain {
  import opened Wrappers
  import opened TextUtil
  import opened PatchEdits
  import opened PatchBlocks

  /** The state of one run: the snapshot `orig`, the buffer `text` and the change log `changed`. */
  class Patcher {
    const orig: string
    var text: string
    var changed: seq<string>

    constructor (src: string)
      ensures orig == src && text == src && changed == []
    {
      orig := src;
      text := src;
      changed := [];
    }

    /** `ensure_import(line)`; afterwards a line of the text equals the stripped import. */
    method EnsureImport(line: string, scan: Search)
      requires ImportScanSound(scan)
      modifies this
      ensures text == EnsureImportEdit(old(text), line, scan).text
      ensures changed == old(changed) + EnsureImportEdit(old(text), line, scan).log
      ensures LinePresent(text, Strip(line))
    {
      if LinePresent(text, Strip(line)) {
        return;
      }
      var at := ImportPoint(scan, text);
      text := Splice(text, at, RStrip(line) + "\n");
      changed := changed + ["+ import: " + Strip(line)];
    }

    /** `ensure_helper(name, code)`; afterwards `name` is defined when `code` defines it. */
    method EnsureHelper(name: string, code: string, boot: Search)
      requires IsIdentifier(name) && Sound(boot)
      modifies this
      ensures text == EnsureHelperEdit(old(text), name, code, boot).text
      ensures changed == old(changed) + EnsureHelperEdit(old(text), name, code, boot).log
      ensures DefinesHelper(code, name) ==> DefinesHelper(text, name)
    {
      if DefinesHelper(code, name) {
        EnsureHelperDefines(text, name, code, boot);
      }
      if DefinesHelper(text, name) {
        return;
      }
      var at := AnchorStart(boot, text);
      text := Splice(text, at, HelperBlock(RStrip(code)));
      changed := changed + ["+ helper: " + name + "()"];
    }

    /** `insert_before(pattern, insert, entry)`. */
    method InsertBefore(anchor: Search, insert: string, entry: string)
      requires Sound(anchor)
      modifies this
      ensures text == InsertBeforeEdit(old(text), anchor, insert, entry).text
      ensures changed == old(changed) + InsertBeforeEdit(old(text), anchor, insert, entry).log
    {
      var m := anchor(text);
      if m.None? {
        return;
      }
      var context := ContextBefore(text, m.value.start);
      if Occurs(Strip(insert), context) {
        return;
      }
      var ls := LineStartBefore(text, m.value.start);
      var textNew := Splice(text, ls, RStrip(insert) + "\n");
      if textNew != text {
        text := textNew;
        changed := changed + ["+ " + entry];
      }
    }

    /** `replace_block(start, end, block, entry)`, cutting at the start of the end match as the code does. */
    method ReplaceBlock(startPat: Search, endPat: Search, block: string, entry: string)
      requires Sound(startPat) && Sound(endPat)
      modifies this
      ensures text == ReplaceBlockEdit(old(text), startPat, endPat, block, entry).text
      ensures changed == old(changed) + ReplaceBlockEdit(old(text), startPat, endPat, block, entry).log
    {
      var ms := startPat(text);
      if ms.None? {
        return;
      }
      var me := endPat(text[ms.value.end..]);
      if me.None? {
        return;
      }
      var a := ms.value.start;
      var b := ms.value.end + me.value.start;
      var textNew := Replace(text, a, b, RStrip(block));
      if textNew != text {
        text := textNew;
        changed := changed + ["~ " + entry];
      }
    }

    /** `patch_job_slug()`, with the block lines `l` it writes. */
    method PatchJobSlug(header: Search, slugLine: Search, fallback: Search, l: SlugLines)
      requires Sound(header) && Sound(slugLine) && Sound(fallback)
      modifies this
      ensures text == JobSlugEdit(old(text), header, slugLine, fallback, l).text
      ensures changed == old(changed) + JobSlugEdit(old(text), header, slugLine, fallback, l).log
    {
      var f := header(text);
      if f.None? {
        return;
      }
      var body := SlugWindow(text, f.value.end);
      var m := slugLine(body);
      if m.None? {
        m := fallback(body);
        if m.None? {
          return;
        }
      }
      var textNew := WindowRewrite(text, f.value.end, body, m.value.start, m.value.end, l);
      if textNew != text {
        text := textNew;
        changed := changed + ["~ job_slug -> _slug(addr)"];
      }
    }

    /** One global `re.sub` rewrite followed by its unconditional log entry. */
    method Rewrite(rewrite: string -> string, entry: string)
      modifies this
      ensures text == RewriteEdit(old(text), rewrite, entry).text
      ensures changed == old(changed) + RewriteEdit(old(text), rewrite, entry).log
    {
      text := rewrite(text);
      changed := changed + [entry];
    }

    /** The writes at the end of the run: backup then live file, and only when the text changed. */
    method Commit() returns (writes: seq<FileWrite>)
      ensures writes == [] <==> text == orig
      ensures writes != [] ==> writes == [WriteBackup(orig), WriteLive(text)]
      ensures writes == CommitPlan(orig, text)
    {
      writes := [];
      if text != orig {
        writes := writes + [WriteBackup(orig)];
        writes := writes + [WriteLive(text)];
      }
    }
  }

  /** The regular-expression searches and substitutions of the script, as oracles. */
  datatype Patterns = Patterns(
    importLines: Search,      // last match of the import-line pattern, `re.M`
    fastApiApp: Search,       // `^\s*app\s*=\s*FastAPI\(\)`, `re.M`
    jobArtifactsDef: Search,  // `def\s+_create_job_artifacts\s*\(`
    jobSlugLine: Search,      // `^\s*job_slug\s*=\s*.*$`, `re.M`
    jobSlugBroad: Search,     // the broader `addr/zipc/base/job_slug` pattern, `re.M`
    summaryUpsert: Search,    // `_upsert_row_by_header\(\s*sh\.worksheet\("Summary"\)`
    geometryUpsert: Search,   // the same for "Geometry"
    linearsUpsert: Search,    // the same for "Linears"
    openingsUpsert: Search,   // the same for "Openings"
    summaryAssign: Search,    // `^\s*summary\s*=\s*\{`, without `re.M`
    summaryOpen: Search,      // `^\s*summary\s*=\s*\{[^\n]*\n`, `re.M`
    closingBrace: Search,     // `^\s*\}\s*$`, `re.M`
    masterHeaders: string -> string,  // the `ws.update(... [[...]])` substitution, `re.S`
    masterTs: string -> string,       // the `ts = datetime....` substitution
    masterRow: string -> string)      // the `row = [ ... ]` substitution, `re.S`

  /** What the oracles are known to satisfy: matches lie in the text; a `^` search without `re.M` matches at 0. */
  ghost predicate Valid(p: Patterns) {
    && ImportScanSound(p.importLines)
    && Sound(p.fastApiApp) && Sound(p.jobArtifactsDef) && Sound(p.jobSlugLine) && Sound(p.jobSlugBroad)
    && Sound(p.summaryUpsert) && Sound(p.geometryUpsert) && Sound(p.linearsUpsert) && Sound(p.openingsUpsert)
    && Sound(p.summaryAssign) && CaretAnchored(p.summaryAssign)
    && Sound(p.summaryOpen) && Sound(p.closingBrace)
  }

  /** The code the script inserts into main.py: three helper definitions, four header seedings, the Summary locals and dict. */
  datatype Payloads = Payloads(
    slugHelper: string, cityStateHelper: string, seedHeadersHelper: string,
    seedSummary: string, seedGeometry: string, seedLinears: string, seedOpenings: string,
    summaryLocals: string, summaryDict: string)

  /** How a run ends: `sys.exit` with a message when main.py is missing, otherwise the writes and the change log. */
  datatype RunResult = Exited(message: string) | Finished(writes: seq<FileWrite>, changes: seq<string>)

  const NotFoundMessage: string := "ERROR: main.py not found in current directory"

  /** Appends the log of `next` to the log of `e`, keeping the text of `next`. */
  function Then(e: Edit, next: Edit): Edit {
    Edit(next.text, e.log + next.log)
  }

  /** Concatenation is associative; each step appends its own entries to those already logged. */
  lemma AppendAssoc<T>(a: seq<T>, b: seq<T>, c: seq<T>)
    ensures (a + b) + c == a + (b + c)
  {
  }

  /** The import lines, helper names and log entries the script passes to its steps. */
  datatype Names = Names(
    reImport: string, zoneImport: string,
    slugName: string, cityStateName: string, seedHeadersName: string,
    summarySeed: string, geometrySeed: string, linearsSeed: string, openingsSeed: string,
    summaryLocalsEntry: string, summaryDictEntry: string,
    masterHeadersEntry: string, masterTsEntry: string, masterRowEntry: string)

  predicate NamesOk(n: Names) {
    IsIdentifier(n.slugName) && IsIdentifier(n.cityStateName) && IsIdentifier(n.seedHeadersName)
  }

  const ScriptNames: Names := Names(
    "import re", "from zoneinfo import ZoneInfo",
    "_slug", "_parse_city_state", "_seed_headers",
    "seed Summary headers", "seed Geometry headers", "seed Linears headers", "seed Openings headers",
    "compute city/state & created_at_local", "Summary dict",
    "~ Master headers -> timestamp_local + extra cols", "~ Master ts -> ET local", "~ Master row -> extended cols")

  /** The three helper names of the script are identifiers, as `ensure_helper` needs. */
  lemma ScriptNamesOk()
    ensures NamesOk(ScriptNames)
  {
  }

  /** The `# --- ensure imports` section. */
  function ImportSteps(t: string, p: Patterns, n: Names): Edit
    requires ImportScanSound(p.importLines)
  {
    var e1 := EnsureImportEdit(t, n.reImport, p.importLines);
    Then(e1, EnsureImportEdit(e1.text, n.zoneImport, p.importLines))
  }

  /** The `# --- helpers` section. */
  function HelperSteps(t: string, p: Patterns, pay: Payloads, n: Names): Edit
    requires Sound(p.fastApiApp) && NamesOk(n)
  {
    var e1 := EnsureHelperEdit(t, n.slugName, pay.slugHelper, p.fastApiApp);
    var e2 := Then(e1, EnsureHelperEdit(e1.text, n.cityStateName, pay.cityStateHelper, p.fastApiApp));
    Then(e2, EnsureHelperEdit(e2.text, n.seedHeadersName, pay.seedHeadersHelper, p.fastApiApp))
  }

  /** The `# --- seed tab headers` section. */
  function SeedSteps(t: string, p: Patterns, pay: Payloads, n: Names): Edit
    requires Sound(p.summaryUpsert) && Sound(p.geometryUpsert) && Sound(p.linearsUpsert) && Sound(p.openingsUpsert)
  {
    var e1 := InsertBeforeEdit(t, p.summaryUpsert, pay.seedSummary, n.summarySeed);
    var e2 := Then(e1, InsertBeforeEdit(e1.text, p.geometryUpsert, pay.seedGeometry, n.geometrySeed));
    var e3 := Then(e2, InsertBeforeEdit(e2.text, p.linearsUpsert, pay.seedLinears, n.linearsSeed));
    Then(e3, InsertBeforeEdit(e3.text, p.openingsUpsert, pay.seedOpenings, n.openingsSeed))
  }

  /** The `# --- Summary` section: the locals, then the dict. */
  function SummarySteps(t: string, p: Patterns, pay: Payloads, n: Names): Edit
    requires Sound(p.summaryAssign) && Sound(p.summaryOpen) && Sound(p.closingBrace)
  {
    var e1 := InsertBeforeEdit(t, p.summaryAssign, pay.summaryLocals, n.summaryLocalsEntry);
    Then(e1, ReplaceBlockEdit(e1.text, p.summaryOpen, p.closingBrace, pay.summaryDict, n.summaryDictEntry))
  }

  /** The three Master rewrites. */
  function MasterSteps(t: string, p: Patterns, n: Names): Edit {
    var e1 := RewriteEdit(t, p.masterHeaders, n.masterHeadersEntry);
    var e2 := Then(e1, RewriteEdit(e1.text, p.masterTs, n.masterTsEntry));
    Then(e2, RewriteEdit(e2.text, p.masterRow, n.masterRowEntry))
  }

  /** The whole script on the text `t`, section by section in the order the script runs them. */
  function PatchAll(t: string, p: Patterns, pay: Payloads, n: Names, l: SlugLines): Edit
    requires Valid(p) && NamesOk(n)
  {
    var e1 := ImportSteps(t, p, n);
    var e2 := Then(e1, HelperSteps(e1.text, p, pay, n));
    var e3 := Then(e2, JobSlugEdit(e2.text, p.jobArtifactsDef, p.jobSlugLine, p.jobSlugBroad, l));
    var e4 := Then(e3, SeedSteps(e3.text, p, pay, n));
    var e5 := Then(e4, SummarySteps(e4.text, p, pay, n));
    Then(e5, MasterSteps(e5.text, p, n))
  }

  /** Each section logs at most one entry per step it runs. */
  lemma ImportStepsLog(t: string, p: Patterns, n: Names)
    requires ImportScanSound(p.importLines)
    ensures |ImportSteps(t, p, n).log| <= 2
  {
  }

  lemma HelperStepsLog(t: string, p: Patterns, pay: Payloads, n: Names)
    requires Sound(p.fastApiApp) && NamesOk(n)
    ensures |HelperSteps(t, p, pay, n).log| <= 3
  {
  }

  /**
    The script's helper section, run on a text where none of the three helpers
    is defined and the `app = FastAPI()` line is found again after each of
    the first two helpers: `_slug`, `_parse_city_state` and `_seed_headers`
    end up above that line in call order, with one log entry each.
   */
  lemma HelperStepsInCallOrder(t: string, p: Patterns, pay: Payloads, n: Names)
    requires Sound(p.fastApiApp) && NamesOk(n)
    requires AnchorRefound(t, p.fastApiApp, n.slugName, pay.slugHelper)
    requires var t1 := EnsureHelperEdit(t, n.slugName, pay.slugHelper, p.fastApiApp).text;
      && AnchorRefound(t1, p.fastApiApp, n.cityStateName, pay.cityStateHelper)
      && !DefinesHelper(EnsureHelperEdit(t1, n.cityStateName, pay.cityStateHelper, p.fastApiApp).text, n.seedHeadersName)
    ensures var boot := p.fastApiApp;
      var t1 := EnsureHelperEdit(t, n.slugName, pay.slugHelper, boot).text;
      var t2 := EnsureHelperEdit(t1, n.cityStateName, pay.cityStateHelper, boot).text;
      && boot(t1).Some? && boot(t2).Some?
      && InCallOrder(HelperSteps(t, p, pay, n).text, boot(t).value.start, RStrip(pay.slugHelper),
                     boot(t1).value.start, RStrip(pay.cityStateHelper),
                     boot(t2).value.start, RStrip(pay.seedHeadersHelper), t[boot(t).value.start..boot(t).value.end])
    ensures HelperSteps(t, p, pay, n).log ==
      ["+ helper: " + n.slugName + "()", "+ helper: " + n.cityStateName + "()", "+ helper: " + n.seedHeadersName + "()"]
  {
    var boot := p.fastApiApp;
    var e1 := EnsureHelperEdit(t, n.slugName, pay.slugHelper, boot);
    var e2 := EnsureHelperEdit(e1.text, n.cityStateName, pay.cityStateHelper, boot);
    var e3 := EnsureHelperEdit(e2.text, n.seedHeadersName, pay.seedHeadersHelper, boot);
    HelpersStayInCallOrder(t, boot, n.slugName, pay.slugHelper, n.cityStateName, pay.cityStateHelper,
                           n.seedHeadersName, pay.seedHeadersHelper, e1, e2, e3);
    AppendAssoc(e1.log, e2.log, e3.log);
  }

  /**
    The script's helper section on a text without an `app = FastAPI()` line
    (a line such as `app = FastAPI(title="save-bom")` does not match the
    pattern at line 35): each helper goes to the top of the file, so the three
    end up in reverse call order in front of the original text.
   */
  lemma HelperStepsWithoutAnchor(t: string, p: Patterns, pay: Payloads, n: Names)
    requires Sound(p.fastApiApp) && NamesOk(n)
    requires !DefinesHelper(t, n.slugName) && p.fastApiApp(t).None?
    requires var t1 := EnsureHelperEdit(t, n.slugName, pay.slugHelper, p.fastApiApp).text;
      && !DefinesHelper(t1, n.cityStateName) && p.fastApiApp(t1).None?
      && var t2 := EnsureHelperEdit(t1, n.cityStateName, pay.cityStateHelper, p.fastApiApp).text;
      && !DefinesHelper(t2, n.seedHeadersName) && p.fastApiApp(t2).None?
    ensures HelperSteps(t, p, pay, n).text ==
      HelperBlock(RStrip(pay.seedHeadersHelper)) + (HelperBlock(RStrip(pay.cityStateHelper)) + (HelperBlock(RStrip(pay.slugHelper)) + t))
  {
    var boot := p.fastApiApp;
    var t1 := EnsureHelperEdit(t, n.slugName, pay.slugHelper, boot).text;
    var t2 := EnsureHelperEdit(t1, n.cityStateName, pay.cityStateHelper, boot).text;
    var t3 := EnsureHelperEdit(t2, n.seedHeadersName, pay.seedHeadersHelper, boot).text;
    HelpersWithoutAnchorReverse(t, boot, n.slugName, pay.slugHelper, n.cityStateName, pay.cityStateHelper,
                                n.seedHeadersName, pay.seedHeadersHelper, t1, t2, t3);
  }

  lemma SeedStepsLog(t: string, p: Patterns, pay: Payloads, n: Names)
    requires Sound(p.summaryUpsert) && Sound(p.geometryUpsert) && Sound(p.linearsUpsert) && Sound(p.openingsUpsert)
    ensures |SeedSteps(t, p, pay, n).log| <= 4
  {
  }

  lemma SummaryStepsLog(t: string, p: Patterns, pay: Payloads, n: Names)
    requires Sound(p.summaryAssign) && Sound(p.summaryOpen) && Sound(p.closingBrace)
    ensures |SummarySteps(t, p, pay, n).log| <= 2
  {
  }

  /** The Master rewrites log their three entries whatever the text holds. */
  lemma MasterStepsLog(t: string, p: Patterns, n: Names)
    ensures MasterSteps(t, p, n).log == [n.masterHeadersEntry, n.masterTsEntry, n.masterRowEntry]
  {
  }

  /**
    The change log of a run is never empty: it ends with the three Master
    entries, after at most twelve entries of the conditional steps.
   */
  lemma PatchAllLog(t: string, p: Patterns, pay: Payloads, n: Names, l: SlugLines, e: Edit)
    requires Valid(p) && NamesOk(n) && e == PatchAll(t, p, pay, n, l)
    ensures 3 <= |e.log| <= 15
    ensures e.log[|e.log| - 3..] == [n.masterHeadersEntry, n.masterTsEntry, n.masterRowEntry]
  {
    var e1 := ImportSteps(t, p, n);
    var e2 := Then(e1, HelperSteps(e1.text, p, pay, n));
    var e3 := Then(e2, JobSlugEdit(e2.text, p.jobArtifactsDef, p.jobSlugLine, p.jobSlugBroad, l));
    var e4 := Then(e3, SeedSteps(e3.text, p, pay, n));
    var e5 := Then(e4, SummarySteps(e4.text, p, pay, n));
    ImportStepsLog(t, p, n);
    HelperStepsLog(e1.text, p, pay, n);
    SeedStepsLog(e3.text, p, pay, n);
    SummaryStepsLog(e4.text, p, pay, n);
    MasterStepsLog(e5.text, p, n);
    assert e.log == e5.log + [n.masterHeadersEntry, n.masterTsEntry, n.masterRowEntry];
  }

  method ImportSection(pt: Patcher, p: Patterns, n: Names)
    requires ImportScanSound(p.importLines)
    modifies pt
    ensures pt.text == ImportSteps(old(pt.text), p, n).text
    ensures pt.changed == old(pt.changed) + ImportSteps(old(pt.text), p, n).log
  {
    ghost var c0 := pt.changed;
    pt.EnsureImport(n.reImport, p.importLines);
    ghost var c1 := pt.changed;
    pt.EnsureImport(n.zoneImport, p.importLines);
    AppendAssoc(c0, c1[|c0|..], pt.changed[|c1|..]);
  }

  method HelperSection(pt: Patcher, p: Patterns, pay: Payloads, n: Names)
    requires Sound(p.fastApiApp) && NamesOk(n)
    modifies pt
    ensures pt.text == HelperSteps(old(pt.text), p, pay, n).text
    ensures pt.changed == old(pt.changed) + HelperSteps(old(pt.text), p, pay, n).log
  {
    ghost var c0 := pt.changed;
    pt.EnsureHelper(n.slugName, pay.slugHelper, p.fastApiApp);
    ghost var c1 := pt.changed;
    pt.EnsureHelper(n.cityStateName, pay.cityStateHelper, p.fastApiApp);
    ghost var c2 := pt.changed;
    pt.EnsureHelper(n.seedHeadersName, pay.seedHeadersHelper, p.fastApiApp);
    AppendAssoc(c0, c1[|c0|..], c2[|c1|..]);
    AppendAssoc(c0, c2[|c0|..], pt.changed[|c2|..]);
  }

  method SeedSection(pt: Patcher, p: Patterns, pay: Payloads, n: Names)
    requires Sound(p.summaryUpsert) && Sound(p.geometryUpsert) && Sound(p.linearsUpsert) && Sound(p.openingsUpsert)
    modifies pt
    ensures pt.text == SeedSteps(old(pt.text), p, pay, n).text
    ensures pt.changed == old(pt.changed) + SeedSteps(old(pt.text), p, pay, n).log
  {
    ghost var c0 := pt.changed;
    pt.InsertBefore(p.summaryUpsert, pay.seedSummary, n.summarySeed);
    ghost var c1 := pt.changed;
    pt.InsertBefore(p.geometryUpsert, pay.seedGeometry, n.geometrySeed);
    ghost var c2 := pt.changed;
    pt.InsertBefore(p.linearsUpsert, pay.seedLinears, n.linearsSeed);
    ghost var c3 := pt.changed;
    pt.InsertBefore(p.openingsUpsert, pay.seedOpenings, n.openingsSeed);
    AppendAssoc(c0, c1[|c0|..], c2[|c1|..]);
    AppendAssoc(c0, c2[|c0|..], c3[|c2|..]);
    AppendAssoc(c0, c3[|c0|..], pt.changed[|c3|..]);
  }

  method SummarySection(pt: Patcher, p: Patterns, pay: Payloads, n: Names)
    requires Sound(p.summaryAssign) && Sound(p.summaryOpen) && Sound(p.closingBrace)
    modifies pt
    ensures pt.text == SummarySteps(old(pt.text), p, pay, n).text
    ensures pt.changed == old(pt.changed) + SummarySteps(old(pt.text), p, pay, n).log
  {
    ghost var c0 := pt.changed;
    pt.InsertBefore(p.summaryAssign, pay.summaryLocals, n.summaryLocalsEntry);
    ghost var c1 := pt.changed;
    pt.ReplaceBlock(p.summaryOpen, p.closingBrace, pay.summaryDict, n.summaryDictEntry);
    AppendAssoc(c0, c1[|c0|..], pt.changed[|c1|..]);
  }

  method MasterSection(pt: Patcher, p: Patterns, n: Names)
    modifies pt
    ensures pt.text == MasterSteps(old(pt.text), p, n).text
    ensures pt.changed == old(pt.changed) + MasterSteps(old(pt.text), p, n).log
  {
    ghost var c0 := pt.changed;
    pt.Rewrite(p.masterHeaders, n.masterHeadersEntry);
    ghost var c1 := pt.changed;
    pt.Rewrite(p.masterTs, n.masterTsEntry);
    ghost var c2 := pt.changed;
    pt.Rewrite(p.masterRow, n.masterRowEntry);
    AppendAssoc(c0, c1[|c0|..], c2[|c1|..]);
    AppendAssoc(c0, c2[|c0|..], pt.changed[|c2|..]);
  }

  /**
    The script, given the names it uses and the job_slug lines it writes:
    exit when main.py is missing; otherwise run every step on a fresh
    `Patcher` and commit.
   */
  method Run(src: Option<string>, p: Patterns, pay: Payloads, n: Names, l: SlugLines) returns (r: RunResult)
    requires Valid(p) && NamesOk(n)
    ensures src.None? ==> r == Exited(NotFoundMessage)
    ensures src.Some? ==>
      r == Finished(CommitPlan(src.value, PatchAll(src.value, p, pay, n, l).text), PatchAll(src.value, p, pay, n, l).log)
  {
    if src.None? {
      return Exited(NotFoundMessage);
    }
    var pt := new Patcher(src.value);
    ImportSection(pt, p, n);
    ghost var c1 := pt.changed;
    HelperSection(pt, p, pay, n);
    ghost var c2 := pt.changed;
    pt.PatchJobSlug(p.jobArtifactsDef, p.jobSlugLine, p.jobSlugBroad, l);
    ghost var c3 := pt.changed;
    SeedSection(pt, p, pay, n);
    ghost var c4 := pt.changed;
    SummarySection(pt, p, pay, n);
    ghost var c5 := pt.changed;
    MasterSection(pt, p, n);
    ghost var all := PatchAll(src.value, p, pay, n, l);
    assert c1 == ImportSteps(src.value, p, n).log;
    assert pt.text == all.text && pt.changed == all.log;
    var writes := pt.Commit();
    r := Finished(writes, pt.changed);
  }

  /** `patch_main.py` itself: `Run` with the script's own names and job_slug lines. */
  method PatchMainPy(src: Option<string>, p: Patterns, pay: Payloads) returns (r: RunResult)
    requires Valid(p)
    ensures NamesOk(ScriptNames)
    ensures src.None? ==> r == Exited(NotFoundMessage)
    ensures src.Some? ==>
      r == Finished(CommitPlan(src.value, PatchAll(src.value, p, pay, ScriptNames, NewSlugLines).text),
                    PatchAll(src.value, p, pay, ScriptNames, NewSlugLines).log)
  {
    ScriptNamesOk();
    r := Run(src, p, pay, ScriptNames, NewSlugLines);
  }
}
