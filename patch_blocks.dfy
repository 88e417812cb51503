/**
  The remaining steps of the save-bom source patcher: `replace_block`,
  `patch_job_slug`, the three global rewrites, and the final decision of what
  to write back.
 */
module PatchBlocks {
  import opened Wrappers
  import opened TextUtil
  import opened PatchEdits

  /** `t[:lo] + s + t[hi:]`: the slice `t[lo..hi]` replaced by `s`. */
  function Replace(t: string, lo: nat, hi: nat, s: string): (r: string)
    requires lo <= hi <= |t|
    ensures |r| == |t| - (hi - lo) + |s|
  {
    t[..lo] + s + t[hi..]
  }

  /** A replacement keeps what precedes `lo`, holds `s` at `lo`, and keeps `k` characters from `hi` right after `s`. */
  lemma ReplaceParts(t: string, lo: nat, hi: nat, s: string, k: nat)
    requires lo <= hi && hi + k <= |t|
    ensures var r := Replace(t, lo, hi, s);
      && r[..lo] == t[..lo]
      && r[lo..lo + |s|] == s
      && r[lo + |s|..lo + |s| + k] == t[hi..hi + k]
  {
    var r := Replace(t, lo, hi, s);
    assert r[lo + |s|..] == t[hi..];
    SliceOfCopy(r, lo + |s|, t[hi..], 0, k);
    assert t[hi..][0..k] == t[hi..hi + k];
  }

  // ---------------------------------------------------------------------------
  // replace_block
  // ---------------------------------------------------------------------------

  /**
    Where `replace_block` cuts: `a` is the start of the start match, `b` and
    `c` the start and end of the end match (searched after the start match),
    all as offsets of the whole text.
   */
  datatype Cut = Cut(a: nat, b: nat, c: nat)

  /** A slice of a suffix is a slice of the whole text. */
  lemma SliceOfSuffix(t: string, o: nat, x: nat, y: nat)
    requires o <= |t| && x <= y <= |t| - o
    ensures t[o..][x..y] == t[o + x..o + y]
  {
    assert t[o..o + |t[o..]|] == t[o..];
    SliceOfCopy(t, o, t[o..], x, y);
  }

  /** The start match, then the end match searched in `text[ms.end():]`; `None` when either is missing. */
  function FindBlock(t: string, startPat: Search, endPat: Search): (r: Option<Cut>)
    requires Sound(startPat) && Sound(endPat)
    ensures r.None? <==> startPat(t).None? || endPat(t[startPat(t).value.end..]).None?
    ensures r.Some? ==>
      && r.value.a == startPat(t).value.start
      && startPat(t).value.end <= r.value.b <= r.value.c <= |t|
      && t[r.value.b..r.value.c] == t[startPat(t).value.end..][endPat(t[startPat(t).value.end..]).value.start..endPat(t[startPat(t).value.end..]).value.end]
  {
    match startPat(t)
    case None => None
    case Some(ms) =>
      match endPat(t[ms.end..])
      case None => None
      case Some(me) =>
        SliceOfSuffix(t, ms.end, me.start, me.end);
        Some(Cut(ms.start, ms.end + me.start, ms.end + me.end))
  }

  /**
    `replace_block(start, end, block, entry)` as the source writes it: nothing
    when either match is missing; otherwise everything from the start match up
    to the START of the end match becomes `block.rstrip()`, so the text the end
    pattern matched survives right after the new block, and `~ entry` is logged
    exactly when the text changed.
   */
  function ReplaceBlockEdit(t: string, startPat: Search, endPat: Search, block: string, entry: string): (e: Edit)
    requires Sound(startPat) && Sound(endPat)
    ensures FindBlock(t, startPat, endPat).None? ==> e == Edit(t, [])
    ensures FindBlock(t, startPat, endPat).Some? ==>
      var cut := FindBlock(t, startPat, endPat).value;
      var n := |RStrip(block)|;
      && |e.text| == |t| - (cut.b - cut.a) + n
      && e.text[..cut.a] == t[..cut.a]
      && e.text[cut.a..cut.a + n] == RStrip(block)
      && e.text[cut.a + n..] == t[cut.b..]
      && e.text[cut.a + n..cut.a + n + (cut.c - cut.b)] == t[cut.b..cut.c]
    ensures e.log == [] || e.log == ["~ " + entry]
    ensures e.log != [] <==> e.text != t
  {
    match FindBlock(t, startPat, endPat)
    case None => Edit(t, [])
    case Some(cut) =>
      var textNew := Replace(t, cut.a, cut.b, RStrip(block));
      ReplaceParts(t, cut.a, cut.b, RStrip(block), cut.c - cut.b);
      assert textNew[cut.a + |RStrip(block)|..] == t[cut.b..];
      if textNew != t then Edit(textNew, ["~ " + entry]) else Edit(t, [])
  }

  /**
    What `replace_block` evidently means to do: replace the block THROUGH the
    end of the end match, so that a new block that carries its own closing
    line takes the place of the old one.
   */
  function ReplaceThroughEndEdit(t: string, startPat: Search, endPat: Search, block: string, entry: string): (e: Edit)
    requires Sound(startPat) && Sound(endPat)
    ensures FindBlock(t, startPat, endPat).None? ==> e == Edit(t, [])
    ensures FindBlock(t, startPat, endPat).Some? ==>
      var cut := FindBlock(t, startPat, endPat).value;
      var n := |RStrip(block)|;
      && |e.text| == |t| - (cut.c - cut.a) + n
      && e.text[..cut.a] == t[..cut.a]
      && e.text[cut.a..cut.a + n] == RStrip(block)
      && e.text[cut.a + n..] == t[cut.c..]
    ensures e.log == [] || e.log == ["~ " + entry]
    ensures e.log != [] <==> e.text != t
  {
    match FindBlock(t, startPat, endPat)
    case None => Edit(t, [])
    case Some(cut) =>
      var textNew := Replace(t, cut.a, cut.c, RStrip(block));
      ReplaceParts(t, cut.a, cut.c, RStrip(block), 0);
      assert textNew[cut.a + |RStrip(block)|..] == t[cut.c..];
      if textNew != t then Edit(textNew, ["~ " + entry]) else Edit(t, [])
  }

  /**
    The corrected step is idempotent: when the second run finds the new block
    again as a whole (its start at the same offset, its closing line as the
    end match), nothing changes and nothing is logged.
   */
  lemma ReplaceThroughEndIdempotent(t: string, startPat: Search, endPat: Search, block: string, entry: string)
    requires Sound(startPat) && Sound(endPat) && FindBlock(t, startPat, endPat).Some?
    requires var e := ReplaceThroughEndEdit(t, startPat, endPat, block, entry);
      var a := FindBlock(t, startPat, endPat).value.a;
      && FindBlock(e.text, startPat, endPat).Some?
      && FindBlock(e.text, startPat, endPat).value.a == a
      && FindBlock(e.text, startPat, endPat).value.c == a + |RStrip(block)|
    ensures var e := ReplaceThroughEndEdit(t, startPat, endPat, block, entry);
      ReplaceThroughEndEdit(e.text, startPat, endPat, block, entry) == Edit(e.text, [])
  {
    var e := ReplaceThroughEndEdit(t, startPat, endPat, block, entry);
    var u := e.text;
    var a := FindBlock(t, startPat, endPat).value.a;
    var r := RStrip(block);
    var e2 := ReplaceThroughEndEdit(u, startPat, endPat, block, entry);
    assert u[a..a + |r|] == r;
    assert e2.text[..a] == u[..a];
    assert e2.text[a..a + |r|] == u[a..a + |r|];
    assert e2.text[a + |r|..] == u[a + |r|..];
    assert e2.text == e2.text[..a] + e2.text[a..a + |r|] + e2.text[a + |r|..];
    assert u == u[..a] + u[a..a + |r|] + u[a + |r|..];
  }

  /**
    The step as written is not idempotent. Suppose a second run finds the new
    block again as a whole: its start at the same offset, and its own closing
    line as a non-empty end match. Then the second run keeps that closing line
    AND puts the block in front of it, so the text grows by the length of the
    end match. The end search only finds the new block's own closing line
    when that line stands alone, that is, when the old closer the first run
    left behind is on a line of its own.
   */
  lemma ReplaceBlockRepeatGrows(t: string, startPat: Search, endPat: Search, block: string, entry: string)
    requires Sound(startPat) && Sound(endPat) && FindBlock(t, startPat, endPat).Some?
    requires var e := ReplaceBlockEdit(t, startPat, endPat, block, entry);
      var a := FindBlock(t, startPat, endPat).value.a;
      && FindBlock(e.text, startPat, endPat).Some?
      && FindBlock(e.text, startPat, endPat).value.a == a
      && FindBlock(e.text, startPat, endPat).value.b < FindBlock(e.text, startPat, endPat).value.c == a + |RStrip(block)|
    ensures var e := ReplaceBlockEdit(t, startPat, endPat, block, entry);
      var cut := FindBlock(e.text, startPat, endPat).value;
      var e2 := ReplaceBlockEdit(e.text, startPat, endPat, block, entry);
      && |e2.text| == |e.text| + (cut.c - cut.b)
      && e2.log == ["~ " + entry]
  {
  }

  /**
    The other way a second run of the step as written can go: the end search
    runs past the new block (as it does when the old closer was glued onto the
    new block's closing line, so that no line of the new block is a lone `}`)
    and stops at a later end match. The second run then deletes everything
    between the end of the new block and that match, the glued closer
    included, and logs again.
   */
  lemma ReplaceBlockRepeatCuts(t: string, startPat: Search, endPat: Search, block: string, entry: string)
    requires Sound(startPat) && Sound(endPat) && FindBlock(t, startPat, endPat).Some?
    requires var e := ReplaceBlockEdit(t, startPat, endPat, block, entry);
      var a := FindBlock(t, startPat, endPat).value.a;
      && FindBlock(e.text, startPat, endPat).Some?
      && FindBlock(e.text, startPat, endPat).value.a == a
      && a + |RStrip(block)| < FindBlock(e.text, startPat, endPat).value.b
    ensures var e := ReplaceBlockEdit(t, startPat, endPat, block, entry);
      var n := |RStrip(block)|;
      var a := FindBlock(t, startPat, endPat).value.a;
      var cut := FindBlock(e.text, startPat, endPat).value;
      var e2 := ReplaceBlockEdit(e.text, startPat, endPat, block, entry);
      && e2.text == e.text[..a + n] + e.text[cut.b..]
      && e2.log == ["~ " + entry]
  {
    var e := ReplaceBlockEdit(t, startPat, endPat, block, entry);
    var r := RStrip(block);
    var a := FindBlock(t, startPat, endPat).value.a;
    var cut := FindBlock(e.text, startPat, endPat).value;
    var e2 := ReplaceBlockEdit(e.text, startPat, endPat, block, entry);
    assert e.text[a..a + |r|] == r;
    assert e2.text[..a] == e.text[..a];
    assert e2.text[a..a + |r|] == r;
    assert e2.text[..a + |r|] == e2.text[..a] + e2.text[a..a + |r|];
    assert e.text[..a + |r|] == e.text[..a] + e.text[a..a + |r|];
    assert e2.text == e2.text[..a + |r|] + e2.text[a + |r|..];
    assert |e2.text| < |e.text|;
  }

  /** The opening line of a `summary = {` dict: what the start search at line 159 matches. */
  const SummaryOpen: string := "    summary = {\n"
  /** One entry of the old dict. */
  const SummaryEntry: string := "        \"a\": 1\n"
  /** The old closing line, without its newline: what the end search at line 160 matches. */
  const SummaryCloser: string := "    }"
  /** The rest of the function after the dict. */
  const SummaryRest: string := "\n    return summary\n"

  /** A text of the shape the Summary step works on: a `summary = {` dict and the line after it. */
  function SummaryBefore(): string {
    SummaryOpen + SummaryEntry + SummaryCloser + SummaryRest
  }

  /** A replacement block that, like the one at lines 161-177, ends with its own closing line. */
  const SummaryBlock: string := "    summary = {\n        \"b\": 2\n    }\n"

  /** `SummaryBlock.rstrip()`: the block up to its closing brace. */
  const SummaryBlockStripped: string := "    summary = {\n        \"b\": 2\n    }"

  /** The start search on that text: the opening line, newline included. */
  function SummaryStart(s: string): Option<Span> {
    if s == SummaryBefore() then Some(Span(0, |SummaryOpen|)) else None
  }

  /** The end search `^\s*\}\s*$` after that start: the old closing line. */
  function SummaryEnd(s: string): Option<Span> {
    if s == SummaryEntry + SummaryCloser + SummaryRest
    then Some(Span(|SummaryEntry|, |SummaryEntry| + |SummaryCloser|))
    else None
  }

  lemma SummaryBlockStrips()
    ensures RStrip(SummaryBlock) == SummaryBlockStripped
  {
    assert SummaryBlock == SummaryBlockStripped + "\n";
    assert SummaryBlock[..|SummaryBlock| - 1] == SummaryBlockStripped;
  }

  /** `(x + y)[|x|..]` is `y`. */
  lemma DropFront(x: string, y: string)
    ensures (x + y)[|x|..] == y
  {
  }

  /** On the finding's text the searches cut at 0, at the old closing line (31) and after it (36). */
  lemma SummaryCut()
    ensures Sound(SummaryStart) && Sound(SummaryEnd)
    ensures FindBlock(SummaryBefore(), SummaryStart, SummaryEnd) == Some(Cut(0, 31, 36))
    ensures SummaryBefore()[31..] == SummaryCloser + SummaryRest
    ensures SummaryBefore()[36..] == SummaryRest
  {
    var t := SummaryBefore();
    assert t == SummaryOpen + (SummaryEntry + SummaryCloser + SummaryRest);
    DropFront(SummaryOpen, SummaryEntry + SummaryCloser + SummaryRest);
    assert t == (SummaryOpen + SummaryEntry) + (SummaryCloser + SummaryRest);
    DropFront(SummaryOpen + SummaryEntry, SummaryCloser + SummaryRest);
    assert t == (SummaryOpen + SummaryEntry + SummaryCloser) + SummaryRest;
    DropFront(SummaryOpen + SummaryEntry + SummaryCloser, SummaryRest);
  }

  /**
    The finding on a concrete text: as written, the old closing line `    }`
    stays after the new block's own closing brace, giving `}    }`.
   */
  lemma ReplaceBlockKeepsOldCloser()
    ensures Sound(SummaryStart) && Sound(SummaryEnd)
    ensures ReplaceBlockEdit(SummaryBefore(), SummaryStart, SummaryEnd, SummaryBlock, "Summary dict").text
      == SummaryBlockStripped + SummaryCloser + SummaryRest
  {
    SummaryCut();
    SummaryBlockStrips();
    var e := ReplaceBlockEdit(SummaryBefore(), SummaryStart, SummaryEnd, SummaryBlock, "Summary dict");
    assert e.text == Replace(SummaryBefore(), 0, 31, SummaryBlockStripped);
    assert SummaryBefore()[..0] == [];
  }

  /** The corrected step on the same text: the new block, then the rest of the function. */
  lemma ReplaceThroughEndFixesCloser()
    ensures Sound(SummaryStart) && Sound(SummaryEnd)
    ensures ReplaceThroughEndEdit(SummaryBefore(), SummaryStart, SummaryEnd, SummaryBlock, "Summary dict").text
      == SummaryBlockStripped + SummaryRest
  {
    SummaryCut();
    SummaryBlockStrips();
    var e := ReplaceThroughEndEdit(SummaryBefore(), SummaryStart, SummaryEnd, SummaryBlock, "Summary dict");
    assert e.text == Replace(SummaryBefore(), 0, 36, SummaryBlockStripped);
    assert SummaryBefore()[..0] == [];
  }

  /** The header of the function that builds the Summary dict. */
  const SummaryFuncHead: string := "def build_summary(payload):\n"

  /** A main.py fragment in which the `summary = {` dict sits inside a function, indented. */
  function SummaryFunc(): string {
    SummaryFuncHead + SummaryBefore()
  }

  /** The Summary locals the script inserts (lines 153-156). */
  const SummaryLocals: string :=
    LocalsCityState
    + "    created_by = payload.get(\"created_by\",\"\")\n"
    + "    status = payload.get(\"status\",\"\")\n"
    + "    created_at_local = datetime.datetime.now(ZoneInfo(\"America/New_York\")).isoformat(timespec=\"seconds\")"

  /** The first line of the Summary locals, built from its indentation, its first name and the rest. */
  const LocalsCityState: string := "    " + "city" + ", state = _parse_city_state(payload.get(\"job_address\",\"\"))\n"

  /**
    `re.search(r'^\s*summary\s*=\s*\{', text)` as line 152 runs it, without
    `re.M`: `^` holds only at offset 0, so on these texts the pattern matches
    only a text that opens with the `summary = {` line.
   */
  function SummaryAssignFromTop(s: string): Option<Span> {
    if |SummaryOpen| <= |s| && s[..|SummaryOpen|] == SummaryOpen then Some(Span(0, |SummaryOpen| - 1)) else None
  }

  /**
    The same search with `re.M`, where `^` holds at every line start: on the
    fragment it finds the indented `summary = {` on the second line.
   */
  function SummaryAssignAnyLine(s: string): Option<Span> {
    if s == SummaryFunc() then Some(Span(|SummaryFuncHead|, |SummaryFuncHead| + |SummaryOpen| - 1)) else None
  }

  /** A string that ends in a non-space character is its own `rstrip()`. */
  lemma RStripKeeps(s: string)
    requires |s| > 0 && !IsSpace(s[|s| - 1])
    ensures RStrip(s) == s
  {
  }

  /** `lstrip()` removes no more than the whitespace before a non-space character at offset `k`. */
  lemma {:induction false} LStripStopsBefore(s: string, k: nat)
    requires k < |s| && !IsSpace(s[k])
    ensures |LStrip(s)| >= |s| - k
    decreases k
  {
    if k > 0 && IsSpace(s[0]) {
      LStripStopsBefore(s[1..], k - 1);
    }
  }

  /** The Summary locals, stripped, are longer than the function header, so they cannot occur in it. */
  lemma SummaryLocalsLong()
    ensures RStrip(SummaryLocals) == SummaryLocals
    ensures |Strip(SummaryLocals)| > |SummaryFuncHead|
  {
    assert SummaryLocals[|SummaryLocals| - 1] == ')';
    RStripKeeps(SummaryLocals);
    assert SummaryLocals[4] == LocalsCityState[4] == "city"[0] == 'c';
    LStripStopsBefore(SummaryLocals, 4);
  }

  /**
    The second finding, as written: with the dict inside a function, the
    search at line 152 finds nothing, so the locals that the new dict reads
    (`city`, `state`, `created_by`, `status`, `created_at_local`) are never
    inserted, and nothing is logged.
   */
  lemma SummaryLocalsMissed(entry: string)
    ensures Sound(SummaryAssignFromTop) && CaretAnchored(SummaryAssignFromTop)
    ensures InsertBeforeEdit(SummaryFunc(), SummaryAssignFromTop, SummaryLocals, entry) == Edit(SummaryFunc(), [])
  {
    assert SummaryFunc()[0] == 'd' && SummaryOpen[0] == ' ';
    assert SummaryFunc()[..|SummaryOpen|][0] == SummaryFunc()[0];
  }

  /**
    The second finding, corrected: searched with `re.M`, the locals go in on
    their own lines right above the `summary = {` line, and the step logs its
    entry.
   */
  lemma SummaryLocalsInserted(entry: string)
    ensures Sound(SummaryAssignAnyLine)
    ensures InsertBeforeEdit(SummaryFunc(), SummaryAssignAnyLine, SummaryLocals, entry)
      == Edit(SummaryFuncHead + SummaryLocals + "\n" + SummaryBefore(), ["+ " + entry])
  {
    var t := SummaryFunc();
    var h := |SummaryFuncHead|;
    SummaryAssignAnyLineSound();
    SummaryHeadSplits();
    SummaryLocalsNotInHead();
    assert ContextBefore(t, h) == SummaryFuncHead;
    assert LineStartBefore(t, h) == h;
    InsertBeforeSplices(t, SummaryAssignAnyLine, SummaryLocals, entry, Span(h, h + |SummaryOpen| - 1));
    SummarySplice();
  }

  /** The `re.M` search only reports a span inside the fragment. */
  lemma SummaryAssignAnyLineSound()
    ensures Sound(SummaryAssignAnyLine)
  {
    forall s: string
      ensures Within(SummaryAssignAnyLine(s), s)
    {
      if s == SummaryFunc() {
        assert |s| == |SummaryFuncHead| + |SummaryBefore()|;
      }
    }
  }

  /** Splicing the stripped locals in at the end of the header. */
  lemma SummarySplice()
    ensures RStrip(SummaryLocals) == SummaryLocals
    ensures Splice(SummaryFunc(), |SummaryFuncHead|, RStrip(SummaryLocals) + "\n")
      == SummaryFuncHead + SummaryLocals + "\n" + SummaryBefore()
  {
    SummaryLocalsLong();
    SummaryHeadSplits();
  }

  /** The fragment splits at the end of the header, and the header ends its line. */
  lemma SummaryHeadSplits()
    ensures SummaryFunc()[..|SummaryFuncHead|] == SummaryFuncHead
    ensures SummaryFunc()[|SummaryFuncHead|..] == SummaryBefore()
    ensures SummaryFunc()[|SummaryFuncHead| - 1] == '\n'
  {
    assert SummaryFuncHead[|SummaryFuncHead| - 1] == '\n';
  }

  /** The stripped locals are not in the header, which is all the context before the dict. */
  lemma SummaryLocalsNotInHead()
    ensures !Occurs(Strip(SummaryLocals), SummaryFuncHead)
  {
    SummaryLocalsLong();
  }

  // ---------------------------------------------------------------------------
  // patch_job_slug
  // ---------------------------------------------------------------------------

  /** How far after `def _create_job_artifacts(` the `job_slug` line is looked for. */
  const SlugWindowWidth: nat := 6000

  /** `text[from:from + 6000]`. */
  function SlugWindow(t: string, from: nat): (w: string)
    requires from <= |t|
    ensures |w| <= SlugWindowWidth && from + |w| <= |t| && w == t[from..from + |w|]
    ensures |w| == SlugWindowWidth || from + |w| == |t|
  {
    if from + SlugWindowWidth <= |t| then t[from..from + SlugWindowWidth] else t[from..]
  }

  /** The four lines that replace a `job_slug` assignment, without indentation or line end. */
  datatype SlugLines = SlugLines(addr: string, zip: string, base: string, assign: string)

  const AddrLine: string := "addr = payload.get(\"job_address\", \"\") or \"\""
  const ZipLine: string := "zipc = str(payload.get(\"zip_code\", \"\") or \"\").strip()"
  const BaseLine: string := "base = datetime.datetime.utcnow().strftime(\"%Y%m%d\") + (f\"-{zipc}\" if zipc else \"\")"
  const SlugAssign: string := "job_slug = _slug(addr) or base"
  const NewSlugLines: SlugLines := SlugLines(AddrLine, ZipLine, BaseLine, SlugAssign)

  /** The new block for a matched line whose leading whitespace is `indent`: each line indented alike. */
  function JobSlugBlock(indent: string, l: SlugLines): (b: string)
    ensures |b| == 4 * |indent| + |l.addr| + |l.zip| + |l.base| + |l.assign| + 4
  {
    indent + l.addr + "\n" + indent + l.zip + "\n" + indent + l.base + "\n" + (indent + l.assign + "\n")
  }

  /** The block starts with the indentation and ends with the indented new `job_slug` assignment. */
  lemma JobSlugBlockShape(indent: string, l: SlugLines)
    ensures var b := JobSlugBlock(indent, l);
      && b[..|indent|] == indent
      && b[|b| - |indent| - |l.assign| - 1..] == indent + l.assign + "\n"
  {
    var head := indent + l.addr + "\n" + indent + l.zip + "\n" + indent + l.base + "\n";
    assert JobSlugBlock(indent, l) == head + (indent + l.assign + "\n");
  }

  /** The `job_slug = ...` line searched in the window, the fallback pattern when the first finds nothing. */
  function SlugMatch(body: string, slugLine: Search, fallback: Search): (m: Option<Span>)
    requires Sound(slugLine) && Sound(fallback)
    ensures m.None? <==> slugLine(body).None? && fallback(body).None?
    ensures Within(m, body)
  {
    if slugLine(body).Some? then slugLine(body) else fallback(body)
  }

  /**
    Where `patch_job_slug` rewrites: `(lo, hi)`, the first `job_slug = ...`
    line match (the broader fallback pattern when that has none) in the window
    after the `_create_job_artifacts` header, as offsets of the whole text.
   */
  function SlugSite(t: string, header: Search, slugLine: Search, fallback: Search): (r: Option<Span>)
    requires Sound(header) && Sound(slugLine) && Sound(fallback)
    ensures r.None? <==>
      || header(t).None?
      || (slugLine(SlugWindow(t, header(t).value.end)).None? && fallback(SlugWindow(t, header(t).value.end)).None?)
    ensures r.Some? ==>
      var from := header(t).value.end;
      && from <= r.value.start <= r.value.end <= from + |SlugWindow(t, from)|
      && r.value.end <= from + SlugWindowWidth
  {
    match header(t)
    case None => None
    case Some(f) =>
      match SlugMatch(SlugWindow(t, f.end), slugLine, fallback)
      case None => None
      case Some(sp) => Some(Span(f.end + sp.start, f.end + sp.end))
  }

  /** Rebuilding the text around a window whose slice `[lo..hi]` was replaced is one replacement in the text. */
  lemma WindowReplace(t: string, from: nat, body: string, lo: nat, hi: nat, s: string)
    requires from + |body| <= |t| && body == t[from..from + |body|] && lo <= hi <= |body|
    ensures body[lo..hi] == t[from + lo..from + hi]
    ensures t[..from] + (body[..lo] + s + body[hi..]) + t[from + |body|..] == Replace(t, from + lo, from + hi, s)
  {
    SliceOfCopy(t, from, body, lo, hi);
    assert t[..from] + body[..lo] == t[..from + lo];
    assert body[hi..] + t[from + |body|..] == t[from + hi..];
  }

  /**
    The matched line `t[lo..hi]` replaced by the block built from its own
    leading whitespace; the text before `lo` and after `hi` is kept.
   */
  function SlugRewrite(t: string, lo: nat, hi: nat, l: SlugLines): string
    requires lo <= hi <= |t|
  {
    Replace(t, lo, hi, JobSlugBlock(LeadingSpace(t[lo..hi]), l))
  }

  /** The rewrite keeps the text before `lo` and after `hi`, and holds the block between. */
  lemma SlugRewriteParts(t: string, lo: nat, hi: nat, l: SlugLines)
    requires lo <= hi <= |t|
    ensures var r := SlugRewrite(t, lo, hi, l);
      var b := JobSlugBlock(LeadingSpace(t[lo..hi]), l);
      && |r| == |t| - (hi - lo) + |b|
      && r[..lo] == t[..lo]
      && r[lo..lo + |b|] == b
      && r[lo + |b|..] == t[hi..]
  {
    var b := JobSlugBlock(LeadingSpace(t[lo..hi]), l);
    ReplaceParts(t, lo, hi, b, 0);
    assert Replace(t, lo, hi, b)[lo + |b|..] == t[hi..];
  }

  /**
    The code's rebuild, `text[:f.end] + body_new + text[f.end + len(body):]`:
    the window with its line `body[lo..hi]` replaced by the block, put back
    between the text before and after the window.
   */
  function WindowRewrite(t: string, from: nat, body: string, lo: nat, hi: nat, l: SlugLines): string
    requires from + |body| <= |t| && lo <= hi <= |body|
  {
    var bodyNew := body[..lo] + JobSlugBlock(LeadingSpace(body[lo..hi]), l) + body[hi..];
    t[..from] + bodyNew + t[from + |body|..]
  }

  /** Rebuilding around the window is replacing the matched line in the whole text. */
  lemma WindowRewriteReplaces(t: string, from: nat, body: string, lo: nat, hi: nat, l: SlugLines)
    requires from + |body| <= |t| && body == t[from..from + |body|] && lo <= hi <= |body|
    ensures WindowRewrite(t, from, body, lo, hi, l) == SlugRewrite(t, from + lo, from + hi, l)
  {
    var b := JobSlugBlock(LeadingSpace(body[lo..hi]), l);
    WindowReplace(t, from, body, lo, hi, b);
    assert b == JobSlugBlock(LeadingSpace(t[from + lo..from + hi]), l);
    assert SlugRewrite(t, from + lo, from + hi, l) == Replace(t, from + lo, from + hi, b);
  }

  /**
    `patch_job_slug()` with the block lines `l` (the script's are
    `NewSlugLines`): nothing when the header or both `job_slug` searches
    fail; otherwise the matched line is rewritten (`SlugRewrite`, which is the
    code's window rebuild by `WindowRewriteReplaces`).
    `~ job_slug -> _slug(addr)` is logged exactly when the text changed.
   */
  function JobSlugEdit(t: string, header: Search, slugLine: Search, fallback: Search, l: SlugLines): (e: Edit)
    requires Sound(header) && Sound(slugLine) && Sound(fallback)
    ensures SlugSite(t, header, slugLine, fallback).None? ==> e == Edit(t, [])
    ensures e.log == [] || e.log == ["~ job_slug -> _slug(addr)"]
    ensures e.log != [] <==> e.text != t
  {
    var textNew := JobSlugNewText(t, header, slugLine, fallback, l);
    Edit(textNew, if textNew != t then ["~ job_slug -> _slug(addr)"] else [])
  }

  /** `text_new` of `patch_job_slug()`: the text itself when a search fails, else the window rebuild. */
  function JobSlugNewText(t: string, header: Search, slugLine: Search, fallback: Search, l: SlugLines): (u: string)
    requires Sound(header) && Sound(slugLine) && Sound(fallback)
    ensures SlugSite(t, header, slugLine, fallback).None? ==> u == t
  {
    match header(t)
    case None => t
    case Some(f) =>
      var body := SlugWindow(t, f.end);
      match SlugMatch(body, slugLine, fallback)
      case None => t
      case Some(sp) => WindowRewrite(t, f.end, body, sp.start, sp.end, l)
  }

  /** Once both searches have matched, the edit is the code's window rebuild. */
  lemma JobSlugEditAt(t: string, header: Search, slugLine: Search, fallback: Search, l: SlugLines, site: Span)
    requires Sound(header) && Sound(slugLine) && Sound(fallback)
    requires SlugSite(t, header, slugLine, fallback) == Some(site)
    ensures JobSlugNewText(t, header, slugLine, fallback, l) == SlugRewrite(t, site.start, site.end, l)
  {
    var f := header(t).value;
    var sp := SlugMatch(SlugWindow(t, f.end), slugLine, fallback).value;
    assert site.start == f.end + sp.start && site.end == f.end + sp.end;
    WindowRewriteReplaces(t, f.end, SlugWindow(t, f.end), sp.start, sp.end, l);
  }


  /**
    `patch_job_slug()` rewrites only inside the 6000-character window after
    the header: the text before the matched line and after it is kept, and
    the matched line gives way to the block carrying its leading whitespace.
   */
  lemma JobSlugKeepsOutside(t: string, header: Search, slugLine: Search, fallback: Search, l: SlugLines, site: Span)
    requires Sound(header) && Sound(slugLine) && Sound(fallback)
    requires SlugSite(t, header, slugLine, fallback) == Some(site)
    ensures header(t).Some? && header(t).value.end <= site.start <= site.end <= header(t).value.end + SlugWindowWidth
    ensures var u := JobSlugNewText(t, header, slugLine, fallback, l);
      var b := JobSlugBlock(LeadingSpace(t[site.start..site.end]), l);
      && |u| == |t| - (site.end - site.start) + |b|
      && u[..site.start] == t[..site.start]
      && u[site.start..site.start + |b|] == b
      && u[site.start + |b|..] == t[site.end..]
  {
    JobSlugEditAt(t, header, slugLine, fallback, l, site);
    SlugRewriteParts(t, site.start, site.end, l);
  }

  /** Leading whitespace followed by a non-space character is exactly what `^(\s*)` captures. */
  lemma LeadingSpaceOf(w: string, rest: string)
    requires AllSpace(w) && rest != [] && !IsSpace(rest[0])
    ensures LeadingSpace(w + rest) == w
  {
    var s := w + rest;
    assert s[|w|] == rest[0];
    assert s[..|w|] == w;
  }

  /**
    `patch_job_slug` is not idempotent: when a second run's search finds the
    block's own last line `indent + job_slug = _slug(addr) or base`, that line
    is replaced by a whole new block, so the text grows by three lines and a
    newline and the step is logged again.
   */
  lemma JobSlugRepeatGrows(t: string, header: Search, slugLine: Search, fallback: Search, l: SlugLines, site: Span, indent: string)
    requires Sound(header) && Sound(slugLine) && Sound(fallback) && AllSpace(indent)
    requires l.assign != [] && !IsSpace(l.assign[0])
    requires SlugSite(t, header, slugLine, fallback) == Some(site)
    requires t[site.start..site.end] == indent + l.assign
    ensures |JobSlugEdit(t, header, slugLine, fallback, l).text| == |t| + 3 * |indent| + |l.addr| + |l.zip| + |l.base| + 4
    ensures JobSlugEdit(t, header, slugLine, fallback, l).log == ["~ job_slug -> _slug(addr)"]
  {
    JobSlugEditAt(t, header, slugLine, fallback, l, site);
    LeadingSpaceOf(indent, l.assign);
    SlugRewriteParts(t, site.start, site.end, l);
  }

  /** The script's own block lines: the new assignment line starts with a non-space character. */
  lemma NewSlugAssignUnindented()
    ensures NewSlugLines.assign != [] && !IsSpace(NewSlugLines.assign[0])
  {
    assert NewSlugLines.assign[0] == 'j';
  }

  // ---------------------------------------------------------------------------
  // The three global rewrites
  // ---------------------------------------------------------------------------

  /**
    One of the `re.sub` rewrites of the Master sheet code: whatever the
    substitution does, including nothing, its entry is logged.
   */
  function RewriteEdit(t: string, rewrite: string -> string, entry: string): (e: Edit)
    ensures e.log == [entry]
    ensures rewrite(t) == t ==> e.text == t
  {
    Edit(rewrite(t), [entry])
  }

  // ---------------------------------------------------------------------------
  // Writing back
  // ---------------------------------------------------------------------------

  /** One file write at the end of the run. */
  datatype FileWrite = WriteBackup(content: string) | WriteLive(content: string)

  /**
    What the run writes: nothing when the text is unchanged; otherwise the
    original content to the backup file first, then the new text to main.py.
   */
  function CommitPlan(orig: string, text: string): (w: seq<FileWrite>)
    ensures w == [] <==> text == orig
    ensures w != [] ==> |w| == 2 && w[0] == WriteBackup(orig) && w[1] == WriteLive(text)
  {
    if text != orig then [WriteBackup(orig), WriteLive(text)] else []
  }
}
