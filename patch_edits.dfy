/**
  What each step of the save-bom source patcher does to the text of main.py,
  as pure functions from the current text to the new text and the entries the
  step adds to the change log.

  Regular-expression searches are not re-implemented: each fixed pattern is a
  `Search`, the first match it finds in a text. Only the three checks whose
  exact meaning the idempotence of a step rests on are spelled out: the
  import-line check, the helper-definition check and the duplicate check of
  `insert_before`.
 */
module PatchEdits {
  import opened Wrappers
  import opened TextUtil

  /** A regular-expression match: `m.start()` and `m.end()`. */
  datatype Span = Span(start: nat, end: nat)

  /** The first match of one fixed pattern (with its fixed flags) in a text. */
  type Search = string -> Option<Span>

  predicate Within(m: Option<Span>, t: string) {
    m.None? || m.value.start <= m.value.end <= |t|
  }

  /** A search only reports spans that lie inside the searched text. */
  ghost predicate Sound(find: Search) {
    forall t :: Within(find(t), t)
  }

  /**
    The search of a pattern that starts with `^`, run without `re.M`: `^` then
    matches only at offset 0, so every match starts there.
   */
  ghost predicate CaretAnchored(find: Search) {
    forall t :: find(t).Some? ==> find(t).value.start == 0
  }

  /**
    The last match of the import-line pattern
    `^(?:from\s+\S+\s+import[^\n]*|import[^\n]*)\n` (with `re.M`): every match
    ends with the newline it consumed.
   */
  ghost predicate ImportScanSound(scan: Search) {
    forall t :: Within(scan(t), t) && (scan(t).Some? ==> 0 < scan(t).value.end && t[scan(t).value.end - 1] == '\n')
  }

  /** The new text after one step and the change-log entries the step appended. */
  datatype Edit = Edit(text: string, log: seq<string>)

  /** `t[:at] + s + t[at:]`. */
  function Splice(t: string, at: nat, s: string): (r: string)
    requires at <= |t|
    ensures |r| == |t| + |s|
  {
    t[..at] + s + t[at..]
  }

  // ---------------------------------------------------------------------------
  // ensure_import
  // ---------------------------------------------------------------------------

  /** `^` under `re.M`: offset 0 or just after a newline. */
  predicate LineStart(t: string, i: nat) {
    i == 0 || (0 < i <= |t| && t[i - 1] == '\n')
  }

  /** `$` under `re.M`: the end of the text or just before a newline. */
  predicate LineEnd(t: string, j: nat) {
    j == |t| || (j < |t| && t[j] == '\n')
  }

  /** `^\s*x\s*$` matches `t[i..j]`, with the literal `x` at offset `k`. */
  predicate LineMatch(t: string, x: string, i: nat, k: nat, j: nat) {
    i <= k && k + |x| <= j <= |t|
    && LineStart(t, i) && AllSpace(t[i..k])
    && t[k..k + |x|] == x
    && AllSpace(t[k + |x|..j]) && LineEnd(t, j)
  }

  /**
    `re.search(rf'^\s*{re.escape(x)}\s*$', t, re.M)` finds a match: some line
    holds `x`, with nothing but whitespace around it.
   */
  predicate LinePresent(t: string, x: string) {
    exists i, k, j | 0 <= i <= k <= j <= |t| :: LineMatch(t, x, i, k, j)
  }

  /** A line inserted at the start of a line is found by the import check. */
  lemma SplicedLineIsPresent(t: string, at: nat, line: string)
    requires at <= |t| && LineStart(t, at)
    ensures LinePresent(Splice(t, at, RStrip(line) + "\n"), Strip(line))
  {
    RStripSplits(line);
    var w := LeadingSpace(RStrip(line));
    var x := Strip(line);
    assert RStrip(line) + "\n" == w + x + "\n";
    SplicedWordsMatch(t, at, w, x);
  }

  /** Whitespace, `x` and a newline spliced in at a line start make a line that holds `x`. */
  lemma SplicedWordsMatch(t: string, at: nat, w: string, x: string)
    requires at <= |t| && LineStart(t, at) && AllSpace(w)
    ensures LineMatch(Splice(t, at, w + x + "\n"), x, at, at + |w|, at + |w| + |x|)
  {
    var s := w + x + "\n";
    var u := Splice(t, at, s);
    var k := at + |w|;
    var j := k + |x|;
    if at > 0 {
      SpliceKeepsPrefix(t, at, s, at - 1, at);
      assert u[at - 1] == u[at - 1..at][0];
    }
    SliceOfCopy(u, at, s, 0, |w|);
    assert s[0..|w|] == w;
    SliceOfCopy(u, at, s, |w|, |w| + |x|);
    assert s[|w|..|w| + |x|] == x;
    assert u[j] == u[at..at + |s|][|w| + |x|];
    assert u[j..j] == [];
  }

  /** `imports[-1].end() if imports else 0`: just after the last import line. */
  function ImportPoint(scan: Search, t: string): (at: nat)
    requires ImportScanSound(scan)
    ensures at <= |t| && LineStart(t, at)
  {
    match scan(t)
    case Some(m) => m.end
    case None => 0
  }

  /**
    `ensure_import(line)`: nothing when a line of the text already equals the
    stripped import; otherwise `line.rstrip()` and a newline go in just after
    the last import line (at offset 0 when there is none) and one
    `+ import: ...` entry is logged. Either way the import is present after.
   */
  function EnsureImportEdit(t: string, line: string, scan: Search): (e: Edit)
    requires ImportScanSound(scan)
    ensures LinePresent(e.text, Strip(line))
    ensures LinePresent(t, Strip(line)) ==> e == Edit(t, [])
    ensures !LinePresent(t, Strip(line)) ==>
      e == Edit(Splice(t, ImportPoint(scan, t), RStrip(line) + "\n"), ["+ import: " + Strip(line)])
  {
    if LinePresent(t, Strip(line)) then Edit(t, [])
    else
      var at := ImportPoint(scan, t);
      SplicedLineIsPresent(t, at, line);
      Edit(Splice(t, at, RStrip(line) + "\n"), ["+ import: " + Strip(line)])
  }

  /** A second `ensure_import` of the same line changes nothing and logs nothing. */
  lemma EnsureImportIdempotent(t: string, line: string, scan: Search)
    requires ImportScanSound(scan)
    ensures var e := EnsureImportEdit(t, line, scan);
      EnsureImportEdit(e.text, line, scan) == Edit(e.text, [])
  {
  }

  // ---------------------------------------------------------------------------
  // ensure_helper
  // ---------------------------------------------------------------------------

  /**
    A word character for `\w` and `\b`, restricted to ASCII letters, digits
    and the underscore; Python's `\w` on `str` also accepts other Unicode
    letters and digits.
   */
  predicate IsWordChar(c: char) {
    ('a' <= c <= 'z') || ('A' <= c <= 'Z') || ('0' <= c <= '9') || c == '_'
  }

  /** A helper name: made of word characters, so it reads literally inside a pattern. */
  predicate IsIdentifier(name: string) {
    forall i :: 0 <= i < |name| ==> IsWordChar(name[i])
  }

  /**
    `\bdef\s+NAME\s*\(` matches `t[k..b + 1]`, with the name at offset `a` and
    the opening parenthesis at offset `b`.
   */
  predicate HeaderAt(t: string, name: string, k: nat, a: nat, b: nat) {
    k + 3 < a && a + |name| <= b < |t|
    && t[k..k + 3] == "def" && (k == 0 || !IsWordChar(t[k - 1]))
    && AllSpace(t[k + 3..a]) && t[a..a + |name|] == name
    && AllSpace(t[a + |name|..b]) && t[b] == '('
  }

  /** `re.search(rf'\bdef\s+{name}\s*\(', t)` finds a match. */
  predicate DefinesHelper(t: string, name: string) {
    exists k, a, b | 0 <= k <= a <= b < |t| :: HeaderAt(t, name, k, a, b)
  }

  /** A slice of a copy of `v` placed at offset `o` of `u` is the same slice of `v`. */
  lemma SliceOfCopy(u: string, o: nat, v: string, x: nat, y: nat)
    requires o + |v| <= |u| && u[o..o + |v|] == v && x <= y <= |v|
    ensures u[o + x..o + y] == v[x..y]
  {
    forall i | 0 <= i < y - x
      ensures u[o + x..o + y][i] == v[x..y][i]
    {
      assert u[o + x + i] == u[o..o + |v|][x + i];
    }
  }

  /**
    A helper header in `code` is still found once `code.rstrip()` is copied
    into a text after a character that is not a word character.
   */
  /** A header that ends before offset `n` is also a header of `v[..n]`. */
  lemma HeaderInPrefix(v: string, n: nat, name: string, k: nat, a: nat, b: nat)
    requires HeaderAt(v, name, k, a, b) && b < n <= |v|
    ensures HeaderAt(v[..n], name, k, a, b)
  {
    var p := v[..n];
    assert v[0..n] == p;
    SliceOfCopy(v, 0, p, k, k + 3);
    SliceOfCopy(v, 0, p, k + 3, a);
    SliceOfCopy(v, 0, p, a, a + |name|);
    SliceOfCopy(v, 0, p, a + |name|, b);
  }

  /** A header of `v` is a header of any text that holds a copy of `v` after a non-word character. */
  lemma HeaderCopied(v: string, u: string, o: nat, name: string, k: nat, a: nat, b: nat)
    requires HeaderAt(v, name, k, a, b)
    requires o + |v| <= |u| && u[o..o + |v|] == v
    requires o == 0 || !IsWordChar(u[o - 1])
    ensures HeaderAt(u, name, o + k, o + a, o + b)
  {
    SliceOfCopy(u, o, v, k, k + 3);
    SliceOfCopy(u, o, v, k + 3, a);
    SliceOfCopy(u, o, v, a, a + |name|);
    SliceOfCopy(u, o, v, a + |name|, b);
    assert u[o + b] == u[o..o + |v|][b];
    if k > 0 {
      assert u[o + k - 1] == u[o..o + |v|][k - 1];
    }
  }

  /**
    A helper header in `code` is still found once `code.rstrip()` is copied
    into a text after a character that is not a word character.
   */
  lemma HeaderCarried(code: string, u: string, o: nat, name: string)
    requires o + |RStrip(code)| <= |u| && u[o..o + |RStrip(code)|] == RStrip(code)
    requires o == 0 || !IsWordChar(u[o - 1])
    ensures DefinesHelper(code, name) ==> DefinesHelper(u, name)
  {
    if DefinesHelper(code, name) {
      var r := RStrip(code);
      var k, a, b :| 0 <= k <= a <= b < |code| && HeaderAt(code, name, k, a, b);
      NonSpaceInsideRStrip(code, b);
      HeaderInPrefix(code, |r|, name, k, a, b);
      HeaderCopied(r, u, o, name, k, a, b);
    }
  }


  /** The first match of the pattern, or offset 0 when it has none. */
  function AnchorStart(find: Search, t: string): (at: nat)
    requires Sound(find)
    ensures at <= |t|
  {
    match find(t)
    case Some(m) => m.start
    case None => 0
  }

  /** What `ensure_helper` splices in around the stripped code `r`: a newline, `r`, a blank line. */
  function HelperBlock(r: string): (b: string)
    ensures |b| == |r| + 3 && b[1..1 + |r|] == r && b[0] == '\n'
  {
    "\n" + r + "\n\n"
  }

  /**
    `ensure_helper(name, code)`: nothing when a `def name(` header already
    exists; otherwise the helper block goes in at the start of the first
    `app = FastAPI()` match (offset 0 without one) and one `+ helper: name()`
    entry is logged. When `code` itself defines `name`, the helper is defined
    afterwards.
   */
  function EnsureHelperEdit(t: string, name: string, code: string, boot: Search): (e: Edit)
    requires IsIdentifier(name) && Sound(boot)
    ensures DefinesHelper(t, name) ==> e == Edit(t, [])
    ensures !DefinesHelper(t, name) ==>
      var at := AnchorStart(boot, t);
      var b := HelperBlock(RStrip(code));
      && |e.text| == |t| + |b|
      && e.text[..at] == t[..at]
      && e.text[at..at + |b|] == b
      && e.text[at + |b|..] == t[at..]
    ensures |e.log| <= 1
    ensures e.log != [] <==> !DefinesHelper(t, name)
    ensures e.log != [] <==> e.text != t
    ensures e.log != [] ==> e.log == ["+ helper: " + name + "()"]
  {
    if DefinesHelper(t, name) then Edit(t, [])
    else Edit(Splice(t, AnchorStart(boot, t), HelperBlock(RStrip(code))), ["+ helper: " + name + "()"])
  }

  /** When `code` itself defines `name`, the helper is defined after `ensure_helper`. */
  lemma EnsureHelperDefines(t: string, name: string, code: string, boot: Search)
    requires IsIdentifier(name) && Sound(boot) && DefinesHelper(code, name)
    ensures DefinesHelper(EnsureHelperEdit(t, name, code, boot).text, name)
  {
    if !DefinesHelper(t, name) {
      HelperBlockCarriesHeader(t, AnchorStart(boot, t), code, name);
    }
  }

  /** A helper block spliced in anywhere brings along the header its code holds. */
  lemma HelperBlockCarriesHeader(t: string, at: nat, code: string, name: string)
    requires at <= |t| && DefinesHelper(code, name)
    ensures DefinesHelper(Splice(t, at, HelperBlock(RStrip(code))), name)
  {
    var r := RStrip(code);
    var u := Splice(t, at, HelperBlock(r));
    SplicePieceAt(t, at, HelperBlock(r), r, 1);
    assert u[at] == HelperBlock(r)[0];
    HeaderCarried(code, u, at + 1, name);
  }

  /** When the helper is missing, `ensure_helper` is exactly a splice and one log entry. */
  lemma HelperEditSplices(t: string, name: string, code: string, boot: Search)
    requires IsIdentifier(name) && Sound(boot) && !DefinesHelper(t, name) && boot(t).Some?
    ensures var e := EnsureHelperEdit(t, name, code, boot);
      && e.text == Splice(t, boot(t).value.start, HelperBlock(RStrip(code)))
      && e.log == ["+ helper: " + name + "()"]
  {
  }

  /** When the helper is missing and there is no `app = FastAPI()` line, its block goes in front of the text. */
  lemma HelperEditAtTop(t: string, name: string, code: string, boot: Search)
    requires IsIdentifier(name) && Sound(boot) && !DefinesHelper(t, name) && boot(t).None?
    ensures EnsureHelperEdit(t, name, code, boot).text == HelperBlock(RStrip(code)) + t
  {
    SpliceAtTop(t, HelperBlock(RStrip(code)));
  }

  /** A helper whose code defines it is added at most once. */
  lemma EnsureHelperIdempotent(t: string, name: string, code: string, boot: Search)
    requires IsIdentifier(name) && Sound(boot) && DefinesHelper(code, name)
    ensures var e := EnsureHelperEdit(t, name, code, boot);
      EnsureHelperEdit(e.text, name, code, boot) == Edit(e.text, [])
  {
    EnsureHelperDefines(t, name, code, boot);
  }

  /**
    `ensure_helper(name, code)` on a text without the helper, where the search
    for the `app = FastAPI()` line finds it, and finds it again after the
    step no earlier than the end of the new helper's code and no later than
    the end of its block (within its trailing blank line).
   */
  predicate AnchorRefound(t: string, boot: Search, name: string, code: string)
    requires IsIdentifier(name) && Sound(boot)
  {
    && !DefinesHelper(t, name) && boot(t).Some?
    && var t1 := EnsureHelperEdit(t, name, code, boot).text;
    && boot(t1).Some?
    && boot(t).value.start + 1 + |RStrip(code)| <= boot(t1).value.start <= boot(t).value.start + |RStrip(code)| + 3
  }

  /**
    `u` holds `r1` just after `s`, `r2` just after `s2` and `r3` just after
    `s3`, in that order, then the anchor text `a`, which follows all three
    helper blocks.
   */
  predicate InCallOrder(u: string, s: nat, r1: string, s2: nat, r2: string, s3: nat, r3: string, a: string) {
    var at := s + |r1| + |r2| + |r3| + 9;
    && s + 1 + |r1| <= s2 && s2 + 1 + |r2| <= s3 && s3 + 1 + |r3| <= at && at + |a| <= |u|
    && u[s + 1..s + 1 + |r1|] == r1
    && u[s2 + 1..s2 + 1 + |r2|] == r2
    && u[s3 + 1..s3 + 1 + |r3|] == r3
    && u[at..at + |a|] == a
  }

  /**
    The script's three `ensure_helper` calls, for helpers not yet defined and
    with the `app = FastAPI()` line found each time, put all three helpers
    above that line in call order and log one entry each, in call order. The
    line must be found again after each of the first two steps where the
    helper block moved it (`AnchorRefound`); this holds when the helpers' code
    has no such line.
   */
  lemma HelpersStayInCallOrder(t: string, boot: Search, n1: string, c1: string, n2: string, c2: string, n3: string, c3: string,
                                e1: Edit, e2: Edit, e3: Edit)
    requires IsIdentifier(n1) && IsIdentifier(n2) && IsIdentifier(n3) && Sound(boot)
    requires e1 == EnsureHelperEdit(t, n1, c1, boot)
    requires e2 == EnsureHelperEdit(e1.text, n2, c2, boot)
    requires e3 == EnsureHelperEdit(e2.text, n3, c3, boot)
    requires AnchorRefound(t, boot, n1, c1) && AnchorRefound(e1.text, boot, n2, c2) && !DefinesHelper(e2.text, n3)
    ensures boot(t).Some? && boot(e1.text).Some? && boot(e2.text).Some?
    ensures InCallOrder(e3.text, boot(t).value.start, RStrip(c1), boot(e1.text).value.start, RStrip(c2),
                        boot(e2.text).value.start, RStrip(c3), t[boot(t).value.start..boot(t).value.end])
    ensures e1.log + e2.log + e3.log == ["+ helper: " + n1 + "()", "+ helper: " + n2 + "()", "+ helper: " + n3 + "()"]
  {
    var m := boot(t).value;
    HelperEditSplices(t, n1, c1, boot);
    HelperEditSplices(e1.text, n2, c2, boot);
    HelperEditSplices(e2.text, n3, c3, boot);
    HelperBlocksKeepOrder(t, m.start, m.end, RStrip(c1), boot(e1.text).value.start, RStrip(c2),
                          boot(e2.text).value.start, RStrip(c3), e1.text, e2.text, e3.text);
    var x1, x2, x3 := "+ helper: " + n1 + "()", "+ helper: " + n2 + "()", "+ helper: " + n3 + "()";
    assert e1.log == [x1] && e2.log == [x2] && e3.log == [x3];
    ThreeEntries(x1, x2, x3);
  }

  /** Three one-entry logs, one after the other, are the three entries in order. */
  lemma ThreeEntries(x1: string, x2: string, x3: string)
    ensures [x1] + [x2] + [x3] == [x1, x2, x3]
  {
  }

  /** Three helper blocks spliced in one after the other keep their code and the anchor in order. */
  lemma HelperBlocksKeepOrder(t: string, s: nat, e: nat, r1: string, s2: nat, r2: string, s3: nat, r3: string,
                              t1: string, t2: string, t3: string)
    requires s <= e <= |t|
    requires s + 1 + |r1| <= s2 <= s + |r1| + 3 && s2 + 1 + |r2| <= s3 <= s2 + |r2| + 3
    requires t1 == Splice(t, s, HelperBlock(r1)) && t2 == Splice(t1, s2, HelperBlock(r2))
    requires t3 == Splice(t2, s3, HelperBlock(r3))
    ensures InCallOrder(t3, s, r1, s2, r2, s3, r3, t[s..e])
  {
    ThreeSplicesKeepOrder(t, s, HelperBlock(r1), s2, HelperBlock(r2), s3, HelperBlock(r3), |r1|, |r2|, |r3|, e - s);
  }

  /**
    Three splices, each no earlier than the end of the previous block's first
    `1 + n` characters and no later than the end of that block: all three
    copies, and the text that followed the first splice point, keep their
    order.
   */
  lemma ThreeSplicesKeepOrder(t: string, s: nat, b1: string, s2: nat, b2: string, s3: nat, b3: string,
                              n1: nat, n2: nat, n3: nat, len: nat)
    requires s + len <= |t| && 1 + n1 <= |b1| && 1 + n2 <= |b2| && 1 + n3 <= |b3|
    requires s + 1 + n1 <= s2 <= s + |b1|
    requires s2 + 1 + n2 <= s3 <= s2 + |b2|
    ensures
      var t3 := Splice(Splice(Splice(t, s, b1), s2, b2), s3, b3);
      var at := s + |b1| + |b2| + |b3|;
      && t3[s + 1..s + 1 + n1] == b1[1..1 + n1]
      && t3[s2 + 1..s2 + 1 + n2] == b2[1..1 + n2]
      && t3[s3 + 1..s3 + 1 + n3] == b3[1..1 + n3]
      && at + len <= |t3|
      && t3[at..at + len] == t[s..s + len]
  {
    var t2 := Splice(Splice(t, s, b1), s2, b2);
    var t3 := Splice(t2, s3, b3);
    TwoSplicesKeepOrder(t, s, b1, s2, b2, n1, n2, len);
    var bootNow := s + |b1| + |b2|;
    SpliceKeepsPrefix(t2, s3, b3, s + 1, s + 1 + n1);
    SpliceKeepsPrefix(t2, s3, b3, s2 + 1, s2 + 1 + n2);
    SliceOfCopy(t3, s3, b3, 1, 1 + n3);
    SpliceKeepsSuffix(t2, s3, b3, bootNow, bootNow + len);
  }

  /**
    Without an `app = FastAPI()` line, each of the three helpers goes in at
    offset 0, in front of the one before it: the helpers end up at the top of
    the file in reverse call order.
   */
  lemma HelpersWithoutAnchorReverse(t: string, boot: Search, n1: string, c1: string, n2: string, c2: string, n3: string, c3: string,
                                    t1: string, t2: string, t3: string)
    requires IsIdentifier(n1) && IsIdentifier(n2) && IsIdentifier(n3) && Sound(boot)
    requires t1 == EnsureHelperEdit(t, n1, c1, boot).text
    requires t2 == EnsureHelperEdit(t1, n2, c2, boot).text
    requires t3 == EnsureHelperEdit(t2, n3, c3, boot).text
    requires !DefinesHelper(t, n1) && boot(t).None?
    requires !DefinesHelper(t1, n2) && boot(t1).None?
    requires !DefinesHelper(t2, n3) && boot(t2).None?
    ensures t3 == HelperBlock(RStrip(c3)) + (HelperBlock(RStrip(c2)) + (HelperBlock(RStrip(c1)) + t))
  {
    HelperEditAtTop(t, n1, c1, boot);
    HelperEditAtTop(t1, n2, c2, boot);
    HelperEditAtTop(t2, n3, c3, boot);
  }

  /**
    Splicing `b1` in at `s`, then `b2` in at `s2` no earlier than the end of
    `b1[..1 + n1]`: both copies and the text that followed `s` keep their order.
   */
  lemma TwoSplicesKeepOrder(t: string, s: nat, b1: string, s2: nat, b2: string, n1: nat, n2: nat, len: nat)
    requires s + len <= |t| && 1 + n1 <= |b1| && 1 + n2 <= |b2|
    requires s + 1 + n1 <= s2 <= s + |b1|
    ensures
      var t2 := Splice(Splice(t, s, b1), s2, b2);
      var bootNow := s + |b1| + |b2|;
      && t2[s + 1..s + 1 + n1] == b1[1..1 + n1]
      && t2[s2 + 1..s2 + 1 + n2] == b2[1..1 + n2]
      && bootNow + len <= |t2|
      && t2[bootNow..bootNow + len] == t[s..s + len]
  {
    var t1 := Splice(t, s, b1);
    var t2 := Splice(t1, s2, b2);
    SliceOfCopy(t1, s, b1, 1, 1 + n1);
    SpliceKeepsPrefix(t1, s2, b2, s + 1, s + 1 + n1);
    SliceOfCopy(t2, s2, b2, 1, 1 + n2);
    SpliceKeepsTail(t, s, b1, len);
    SpliceKeepsSuffix(t1, s2, b2, s + |b1|, s + |b1| + len);
  }

  /** A splice at `at` leaves a slice that ends by `at` alone. */
  lemma SpliceKeepsPrefix(t: string, at: nat, b: string, x: nat, y: nat)
    requires x <= y <= at <= |t|
    ensures Splice(t, at, b)[x..y] == t[x..y]
  {
    var u := Splice(t, at, b);
    assert u[0..at] == t[0..at];
    SliceOfCopy(u, 0, t[..at], x, y);
    SliceOfCopy(t, 0, t[..at], x, y);
  }

  /** A splice at `at` moves a slice that starts at `at` or later right by `|b|`. */
  lemma SpliceKeepsSuffix(t: string, at: nat, b: string, x: nat, y: nat)
    requires at <= x <= y <= |t|
    ensures Splice(t, at, b)[x + |b|..y + |b|] == t[x..y]
  {
    var u := Splice(t, at, b);
    SliceOfCopy(u, at + |b|, t[at..], x - at, y - at);
    SliceOfCopy(t, at, t[at..], x - at, y - at);
  }

  /** After a splice of `b` at `s`, the text that followed `s` follows `b`. */
  lemma SpliceKeepsTail(t: string, s: nat, b: string, len: nat)
    requires s + len <= |t|
    ensures Splice(t, s, b)[s + |b|..s + |b| + len] == t[s..s + len]
  {
    SpliceKeepsSuffix(t, s, b, s, s + len);
  }

  // ---------------------------------------------------------------------------
  // insert_before
  // ---------------------------------------------------------------------------

  /** How far back `insert_before` looks for an earlier copy of its text. */
  const ContextWidth: nat := 300

  /** `text[max(0, start - 300):start]`. */
  function ContextBefore(t: string, start: nat): (ctx: string)
    requires start <= |t|
    ensures |ctx| <= ContextWidth && |ctx| <= start && ctx == t[start - |ctx|..start]
  {
    if start >= ContextWidth then t[start - ContextWidth..start] else t[..start]
  }

  /**
    `insert_before(pattern, insert, entry)`: nothing when the anchor pattern
    has no match, or when `insert.strip()` already occurs in the 300
    characters before the match; otherwise `insert.rstrip()` and a newline go
    in at the start of the anchor's line, and `+ entry` is logged exactly when
    the text changed.
   */
  function InsertBeforeEdit(t: string, anchor: Search, insert: string, entry: string): (e: Edit)
    requires Sound(anchor)
    ensures anchor(t).None? ==> e == Edit(t, [])
    ensures anchor(t).Some? && Occurs(Strip(insert), ContextBefore(t, anchor(t).value.start)) ==> e == Edit(t, [])
    ensures anchor(t).Some? && !Occurs(Strip(insert), ContextBefore(t, anchor(t).value.start)) ==>
      e.text == Splice(t, LineStartBefore(t, anchor(t).value.start), RStrip(insert) + "\n")
    ensures e.log == [] || e.log == ["+ " + entry]
    ensures e.log != [] <==> e.text != t
  {
    match anchor(t)
    case None => Edit(t, [])
    case Some(m) =>
      if Occurs(Strip(insert), ContextBefore(t, m.start)) then Edit(t, [])
      else
        var ls := LineStartBefore(t, m.start);
        var textNew := Splice(t, ls, RStrip(insert) + "\n");
        if textNew != t then Edit(textNew, ["+ " + entry]) else Edit(t, [])
  }

  /** Past its two guards, `insert_before` splices the stripped insert in at the anchor's line start and logs its entry. */
  lemma InsertBeforeSplices(t: string, anchor: Search, insert: string, entry: string, m: Span)
    requires Sound(anchor) && anchor(t) == Some(m)
    requires !Occurs(Strip(insert), ContextBefore(t, m.start))
    ensures InsertBeforeEdit(t, anchor, insert, entry)
      == Edit(Splice(t, LineStartBefore(t, m.start), RStrip(insert) + "\n"), ["+ " + entry])
  {
    var e := InsertBeforeEdit(t, anchor, insert, entry);
    assert |e.text| == |t| + |RStrip(insert) + "\n"|;
  }

  /** Past its two guards, `insert_before` always changes the text and logs it. */
  lemma InsertBeforeGuardsDecide(t: string, anchor: Search, insert: string, entry: string)
    requires Sound(anchor)
    ensures var e := InsertBeforeEdit(t, anchor, insert, entry);
      e.log == [] <==> anchor(t).None? || Occurs(Strip(insert), ContextBefore(t, anchor(t).value.start))
  {
    var e := InsertBeforeEdit(t, anchor, insert, entry);
    if anchor(t).None? {
      assert e.log == [];
    } else {
      var m := anchor(t).value;
      if Occurs(Strip(insert), ContextBefore(t, m.start)) {
        assert e.log == [];
      } else {
        InsertBeforeSplices(t, anchor, insert, entry, m);
        assert e.log != [];
      }
    }
  }

  /**
    A `^`-anchored pattern searched without `re.M` (as at line 152) can only
    match at offset 0, so `insert_before` either changes nothing or puts its
    text at the very top of the file.
   */
  lemma InsertBeforeCaretGoesToTop(t: string, anchor: Search, insert: string, entry: string)
    requires Sound(anchor) && CaretAnchored(anchor)
    ensures var e := InsertBeforeEdit(t, anchor, insert, entry);
      e.text == t || e.text == RStrip(insert) + "\n" + t
  {
    if anchor(t).Some? {
      assert anchor(t).value.start == 0;
      assert LineStartBefore(t, 0) == 0;
      SpliceAtTop(t, RStrip(insert) + "\n");
    }
  }

  /** A splice at offset 0 puts the new text in front. */
  lemma SpliceAtTop(t: string, s: string)
    ensures Splice(t, 0, s) == s + t
  {
    assert t[..0] == [] && t[0..] == t;
  }

  /**
    Running `insert_before` again after it inserted is a no-op, provided the
    anchor is found again where the insertion moved it and the inserted text
    plus the anchor line's indentation fit in the 300-character window.
   */
  lemma InsertBeforeIdempotent(t: string, anchor: Search, insert: string, entry: string)
    requires Sound(anchor) && anchor(t).Some?
    requires var e := InsertBeforeEdit(t, anchor, insert, entry);
      var m := anchor(t).value;
      && e.text != t
      && anchor(e.text) == Some(Span(m.start + |RStrip(insert)| + 1, m.end + |RStrip(insert)| + 1))
      && |RStrip(insert)| + 1 + (m.start - LineStartBefore(t, m.start)) <= ContextWidth
    ensures var e := InsertBeforeEdit(t, anchor, insert, entry);
      InsertBeforeEdit(e.text, anchor, insert, entry) == Edit(e.text, [])
  {
    var m := anchor(t).value;
    var ls := LineStartBefore(t, m.start);
    var e := InsertBeforeEdit(t, anchor, insert, entry);
    assert !Occurs(Strip(insert), ContextBefore(t, m.start));
    assert e.text == Splice(t, ls, RStrip(insert) + "\n");
    InsertedTextInContext(t, ls, m.start, insert);
    assert Occurs(Strip(insert), ContextBefore(e.text, anchor(e.text).value.start));
  }

  /**
    After `insert.rstrip()` and a newline go in at `ls`, the 300 characters
    before the moved anchor hold `insert.strip()` when the inserted text and
    the rest of the anchor line up to the anchor fit in them.
   */
  lemma InsertedTextInContext(t: string, ls: nat, ms: nat, insert: string)
    requires ls <= ms <= |t|
    requires |RStrip(insert)| + 1 + (ms - ls) <= ContextWidth
    ensures Occurs(Strip(insert), ContextBefore(Splice(t, ls, RStrip(insert) + "\n"), ms + |RStrip(insert)| + 1))
  {
    var r, x := RStrip(insert), Strip(insert);
    var p := StripOffset(insert);
    PieceOfLine(r, x, p);
    SpliceInContext(t, ls, ms, r + "\n", x, p, ms + |r| + 1);
  }

  /** A tail `x` of `r` is still at offset `p` once a newline follows `r`. */
  lemma PieceOfLine(r: string, x: string, p: nat)
    requires p + |x| == |r| && r[p..] == x
    ensures (r + "\n")[p..p + |x|] == x
  {
    var s := r + "\n";
    assert s[0..|r|] == r;
    SliceOfCopy(s, 0, r, p, p + |x|);
    assert r[p..p + |x|] == r[p..];
  }

  /** A piece `x` of a spliced string `s` lies inside the window before `ms + |s|`, the moved `ms`. */
  lemma SpliceInContext(t: string, ls: nat, ms: nat, s: string, x: string, p: nat, ns: nat)
    requires ls <= ms <= |t| && p + |x| <= |s| && s[p..p + |x|] == x
    requires |s| + (ms - ls) <= ContextWidth && ns == ms + |s|
    ensures Occurs(x, ContextBefore(Splice(t, ls, s), ns))
  {
    SplicePieceAt(t, ls, s, x, p);
    WindowHolds(Splice(t, ls, s), ns, ls + p, x);
  }

  /** A piece of the spliced text sits at the splice point plus its offset. */
  lemma SplicePieceAt(t: string, ls: nat, s: string, x: string, p: nat)
    requires ls <= |t| && p + |x| <= |s| && s[p..p + |x|] == x
    ensures ls + p + |x| <= |Splice(t, ls, s)| && Splice(t, ls, s)[ls + p..ls + p + |x|] == x
  {
    var u := Splice(t, ls, s);
    assert u[ls..ls + |s|] == s;
    SliceOfCopy(u, ls, s, p, p + |x|);
  }

  /** A copy of `x` that ends by `ns` and starts at most 300 characters before it is in the window. */
  lemma WindowHolds(u: string, ns: nat, q: nat, x: string)
    requires q + |x| <= ns <= |u| && ns - q <= ContextWidth && u[q..q + |x|] == x
    ensures Occurs(x, ContextBefore(u, ns))
  {
    var ctx := ContextBefore(u, ns);
    var lo := ns - |ctx|;
    assert lo <= q;
    SliceOfCopy(u, lo, ctx, q - lo, q + |x| - lo);
    OccursIn(x, ctx, q - lo);
  }
}
