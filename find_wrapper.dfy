/**
  The Dialogflow CX webhook that answers a `find_distributors` tag: it reads
  the job ZIP from the session parameters, posts it to the distributor
  service, and renders the first three rows it gets back as numbered lines,
  chips and `dist_<i>_*` session parameters.
 */
module FindWrapper {
  import opened Wrappers
  import opened Json
  import opened TextUtil
  import opened Webhook

  const HandlerTag: string := "find_distributors"
  const Misconfig: string := "Server misconfig: FIND_DISTRIBUTORS_URL not set."
  const AskForZip: string := "What’s the job ZIP code?"

  /** `f"{float(miles):.2f}"`: the formatted number, or None when `float` raises. */
  type Format = Value -> Option<string>

  /** `params.get("zip-code") or params.get("zip") or params.get("zipcode")`. */
  function ZipOf(f: seq<(string, Value)>): Value {
    Or(Or(Get(f, "zip-code", Null), Get(f, "zip", Null)), Get(f, "zipcode", Null))
  }

  /** The ZIP is the first truthy of `zip-code`, `zip` and `zipcode`. */
  lemma ZipFallback(f: seq<(string, Value)>)
    ensures Truthy(Get(f, "zip-code", Null)) ==> ZipOf(f) == Get(f, "zip-code", Null)
    ensures !Truthy(Get(f, "zip-code", Null)) && Truthy(Get(f, "zip", Null)) ==> ZipOf(f) == Get(f, "zip", Null)
    ensures !Truthy(Get(f, "zip-code", Null)) && !Truthy(Get(f, "zip", Null)) ==> ZipOf(f) == Get(f, "zipcode", Null)
    ensures Truthy(ZipOf(f)) <==>
      Truthy(Get(f, "zip-code", Null)) || Truthy(Get(f, "zip", Null)) || Truthy(Get(f, "zipcode", Null))
  {
  }

  /** The one request: `{"zip_code": str(zip_code)}` posted to the service URL. */
  function ZipRequest(url: string, zip: Value): Call {
    PostJson(url, Obj([("zip_code", Str(PyStr(zip)))]))
  }

  // ---------------------------------------------------------------------------
  // One row
  // ---------------------------------------------------------------------------

  /** `r.get("name") or "Distributor"`. */
  function RowName(f: seq<(string, Value)>): Value {
    Or(Get(f, "name", Null), Str("Distributor"))
  }

  /** `r.get("address") or ""`. */
  function RowAddress(f: seq<(string, Value)>): Value {
    Or(Get(f, "address", Null), Str(""))
  }

  /** `r.get("distance_miles") or r.get("miles")`. */
  function RowMiles(f: seq<(string, Value)>): Value {
    Or(Get(f, "distance_miles", Null), Get(f, "miles", Null))
  }

  /** `isinstance(miles, (int, float, str))`; a Python bool is an int. */
  predicate Numberish(miles: Value) {
    miles.Bool? || miles.Int? || miles.Float? || miles.Str?
  }

  /** The ` — <miles> mi` suffix, empty for other values; None when `float(miles)` raises. */
  function MilesSuffix(miles: Value, fmt: Format): Option<string> {
    if !Numberish(miles) then Some("")
    else match fmt(miles)
      case None => None
      case Some(t) => Some(" — " + t + " mi")
  }

  /** `f"{i}) {name} — {address}"` and the miles suffix, for a dict row; None when the row raises. */
  function RowLine(i: nat, r: Value, fmt: Format): Option<string> {
    if !r.Obj? then None
    else match MilesSuffix(RowMiles(r.fields), fmt)
      case None => None
      case Some(suffix) =>
        Some(NatToDecimal(i) + ") " + PyStr(RowName(r.fields)) + " — " + PyStr(RowAddress(r.fields)) + suffix)
  }

  /** A row's miles are printed exactly when they are a number or a string `float` accepts. */
  lemma RowLineCases(i: nat, r: Value, fmt: Format)
    ensures !r.Obj? ==> RowLine(i, r, fmt).None?
    ensures r.Obj? && !Numberish(RowMiles(r.fields)) ==>
      RowLine(i, r, fmt) == Some(NatToDecimal(i) + ") " + PyStr(RowName(r.fields)) + " — " + PyStr(RowAddress(r.fields)))
    ensures r.Obj? && Numberish(RowMiles(r.fields)) ==>
      (RowLine(i, r, fmt).Some? <==> fmt(RowMiles(r.fields)).Some?)
  {
    if r.Obj? && !Numberish(RowMiles(r.fields)) {
      var s := NatToDecimal(i) + ") " + PyStr(RowName(r.fields)) + " — " + PyStr(RowAddress(r.fields));
      assert s + "" == s;
    }
  }

  /** The session parameter key `dist_<i>_<field>`. */
  function DistKey(i: nat, field: string): string {
    "dist_" + NatToDecimal(i) + "_" + field
  }

  /** The three fields each rendered row stores. */
  predicate RowField(field: string) {
    field == "name" || field == "address" || field == "miles"
  }

  /** What a row stores under `dist_<i>_<field>`. */
  function RowValue(f: seq<(string, Value)>, field: string): Value {
    if field == "name" then RowName(f)
    else if field == "address" then RowAddress(f)
    else RowMiles(f)
  }

  /** For one-digit row numbers the keys of two rows, or of two fields, never collide. */
  lemma DistKeyInjective(i: nat, j: nat, f: string, g: string)
    requires 1 <= i <= 9 && 1 <= j <= 9
    ensures DistKey(i, f) == DistKey(j, g) <==> i == j && f == g
  {
    if DistKey(i, f) == DistKey(j, g) {
      assert DistKey(i, f)[5] == DistKey(j, g)[5];
      assert DistKey(i, f)[7..] == f;
      assert DistKey(j, g)[7..] == g;
    }
  }

  // ---------------------------------------------------------------------------
  // The rows
  // ---------------------------------------------------------------------------

  /** Every row renders: it is a dict, and its miles, when numeric, pass `float`. */
  predicate RowsOk(rows: seq<Value>, fmt: Format) {
    forall j :: 0 <= j < |rows| ==> RowLine(j + 1, rows[j], fmt).Some?
  }

  /** The lines of the rows, numbered from 1, in order; None as soon as a row raises. */
  function LinesOf(rows: seq<Value>, fmt: Format): Option<seq<string>>
    decreases |rows|
  {
    if rows == [] then Some([])
    else match LinesOf(rows[..|rows| - 1], fmt)
      case None => None
      case Some(ls) =>
        match RowLine(|rows|, rows[|rows| - 1], fmt)
        case None => None
        case Some(l) => Some(ls + [l])
  }

  /** The lines exist exactly when every row renders, one per row, each the line of its row. */
  lemma {:induction false} LinesOfRows(rows: seq<Value>, fmt: Format)
    ensures LinesOf(rows, fmt).Some? <==> RowsOk(rows, fmt)
    ensures LinesOf(rows, fmt).Some? ==> |LinesOf(rows, fmt).value| == |rows|
    ensures LinesOf(rows, fmt).Some? ==>
      forall j :: 0 <= j < |rows| ==> RowLine(j + 1, rows[j], fmt) == Some(LinesOf(rows, fmt).value[j])
    decreases |rows|
  {
    if rows != [] {
      var n := |rows|;
      var init := rows[..n - 1];
      LinesOfRows(init, fmt);
      assert forall j :: 0 <= j < n - 1 ==> init[j] == rows[j];
      if RowsOk(rows, fmt) {
        assert RowsOk(init, fmt);
        assert RowLine(n, rows[n - 1], fmt).Some?;
      } else if LinesOf(init, fmt).Some? {
        var j :| 0 <= j < n && RowLine(j + 1, rows[j], fmt).None?;
        assert j == n - 1;
      }
    }
  }

  /** The chip of each row, in order: its name. */
  function Chips(rows: seq<Value>): seq<Value>
    decreases |rows|
  {
    if rows == [] then [] else Chips(rows[..|rows| - 1]) + [RowName(Fields(rows[|rows| - 1]))]
  }

  /** One chip per row, the row's name. */
  lemma {:induction false} ChipsAt(rows: seq<Value>)
    ensures |Chips(rows)| == |rows|
    ensures forall j :: 0 <= j < |rows| ==> Chips(rows)[j] == RowName(Fields(rows[j]))
    decreases |rows|
  {
    if rows != [] {
      var init := rows[..|rows| - 1];
      ChipsAt(init);
      assert forall j :: 0 <= j < |rows| - 1 ==> init[j] == rows[j];
    }
  }

  /** The three entries `out_params.update({...})` brings for row number `i`. */
  function RowEntries(i: nat, f: seq<(string, Value)>): seq<(string, Value)> {
    [(DistKey(i, "name"), RowName(f)), (DistKey(i, "address"), RowAddress(f)), (DistKey(i, "miles"), RowMiles(f))]
  }

  /** `out_params` after the rows, numbered from 1: each row's entries after those of the rows before it. */
  function OutParams(rows: seq<Value>): seq<(string, Value)>
    decreases |rows|
  {
    if rows == [] then [] else OutParams(rows[..|rows| - 1]) + RowEntries(|rows|, Fields(rows[|rows| - 1]))
  }

  /** Within the entries of row `n`, a `dist_<i>_<field>` key finds that field exactly when `i` is `n`. */
  lemma RowEntriesLookup(n: nat, f: seq<(string, Value)>, i: nat, field: string)
    requires 1 <= n <= 9 && 1 <= i <= 9 && RowField(field)
    ensures Lookup(RowEntries(n, f), DistKey(i, field)) == if i == n then Some(RowValue(f, field)) else None
  {
    DistKeyInjective(i, n, field, "name");
    DistKeyInjective(i, n, field, "address");
    DistKeyInjective(i, n, field, "miles");
    var e := RowEntries(n, f);
    assert e[1..][1..] == [e[2]];
    assert Lookup([e[2]], DistKey(i, field)) == if e[2].0 == DistKey(i, field) then Some(e[2].1) else None;
  }

  /**
    `out_params` holds `dist_<i>_name`, `dist_<i>_address` and `dist_<i>_miles`
    for each row `i` (from 1) with that row's values, no other key of that
    form, and nothing else: three entries per row.
   */
  lemma {:induction false} OutParamsKeys(rows: seq<Value>)
    requires |rows| <= 9
    ensures |OutParams(rows)| == 3 * |rows|
    ensures forall i: nat, field :: 1 <= i <= 9 && RowField(field) ==>
      Lookup(OutParams(rows), DistKey(i, field)) ==
        if i <= |rows| then Some(RowValue(Fields(rows[i - 1]), field)) else None
    decreases |rows|
  {
    if rows != [] {
      var n := |rows|;
      var init := rows[..n - 1];
      OutParamsKeys(init);
      forall i: nat, field | 1 <= i <= 9 && RowField(field)
        ensures Lookup(OutParams(rows), DistKey(i, field)) ==
          if i <= n then Some(RowValue(Fields(rows[i - 1]), field)) else None
      {
        LookupAppend(OutParams(init), RowEntries(n, Fields(rows[n - 1])), DistKey(i, field));
        RowEntriesLookup(n, Fields(rows[n - 1]), i, field);
        if i < n {
          assert rows[i - 1] == init[i - 1];
        }
      }
    }
  }

  /** Each line starts with its row number, from 1, and carries the row's name and address. */
  lemma LinesNumbered(rows: seq<Value>, fmt: Format, j: nat)
    requires RowsOk(rows, fmt) && j < |rows|
    ensures rows[j].Obj?
    ensures LinesOf(rows, fmt).Some? && j < |LinesOf(rows, fmt).value|
    ensures StartsWith(LinesOf(rows, fmt).value[j], NatToDecimal(j + 1) + ") " + PyStr(RowName(rows[j].fields)) + " — " +
      PyStr(RowAddress(rows[j].fields)))
  {
    LinesOfRows(rows, fmt);
    var head := NatToDecimal(j + 1) + ") " + PyStr(RowName(rows[j].fields)) + " — " + PyStr(RowAddress(rows[j].fields));
    var suffix := MilesSuffix(RowMiles(rows[j].fields), fmt).value;
    assert LinesOf(rows, fmt).value[j] == head + suffix;
    assert (head + suffix)[..|head|] == head;
  }

  /** Once a row among the first `m` raises, the loop over all the rows raises. */
  lemma {:induction false} LinesNone(rows: seq<Value>, m: nat, fmt: Format)
    requires m <= |rows| && LinesOf(rows[..m], fmt).None?
    ensures LinesOf(rows, fmt).None?
    decreases |rows| - m
  {
    if m < |rows| {
      assert rows[..m + 1][..m] == rows[..m];
      LinesNone(rows, m + 1, fmt);
    } else {
      assert rows[..m] == rows;
    }
  }

  /** The lines, chips and `out_params` after the loop. */
  datatype Rendering = Rendering(lines: seq<string>, chips: seq<Value>, params: seq<(string, Value)>)

  /** The loop over `rows`: None when some row raises, else what it builds. */
  function Render(rows: seq<Value>, fmt: Format): Option<Rendering> {
    match LinesOf(rows, fmt)
    case None => None
    case Some(ls) => Some(Rendering(ls, Chips(rows), OutParams(rows)))
  }

  /** `min(a, b)`. */
  function Min(a: nat, b: nat): nat {
    if a < b then a else b
  }

  /** Row number `i`: its name, and its text, None when the row is not a dict or `float(miles)` raises. */
  method RowText(i: nat, r: Value, fmt: Format) returns (line: Option<string>, name: Value)
    ensures line == RowLine(i, r, fmt)
    ensures name == RowName(Fields(r))
  {
    name := RowName(Fields(r));
    if !r.Obj? {
      return None, name;
    }
    var address := RowAddress(r.fields);
    var miles := RowMiles(r.fields);
    var suffix := MilesSuffix(miles, fmt);
    if suffix.None? {
      return None, name;
    }
    line := Some(NatToDecimal(i) + ") " + PyStr(name) + " — " + PyStr(address) + suffix.value);
  }

  /**
    `out_params.update({...})` for row number `k + 1`, after the rows before
    it: as its keys are new, the update appends the row's entries.
   */
  lemma UpdateRow(rows: seq<Value>, k: nat)
    requires k < |rows| && k < 9
    ensures Update(OutParams(rows[..k]), RowEntries(k + 1, Fields(rows[k]))) == OutParams(rows[..k + 1])
  {
    var i := k + 1;
    OutParamsKeys(rows[..k]);
    var e := RowEntries(i, Fields(rows[k]));
    forall j | 0 <= j < |e|
      ensures Lookup(OutParams(rows[..k]), e[j].0).None?
    {
      RowEntriesLookup(i, Fields(rows[k]), i, if j == 0 then "name" else if j == 1 then "address" else "miles");
    }
    DistKeyInjective(i, i, "address", "name");
    DistKeyInjective(i, i, "miles", "name");
    DistKeyInjective(i, i, "miles", "address");
    UpdateFresh(OutParams(rows[..k]), e);
    assert rows[..k + 1][..k] == rows[..k];
  }

  /** The `enumerate(..., start=1)` loop over `rows`, appending to `lines` and `chips` and updating `out_params`. */
  method RenderRows(rows: seq<Value>, fmt: Format) returns (res: Option<Rendering>)
    requires |rows| <= 9
    ensures res == Render(rows, fmt)
  {
    var lines: seq<string> := [];
    var chips: seq<Value> := [];
    var params: seq<(string, Value)> := [];
    var k := 0;
    while k < |rows|
      invariant 0 <= k <= |rows|
      invariant LinesOf(rows[..k], fmt) == Some(lines)
      invariant chips == Chips(rows[..k])
      invariant params == OutParams(rows[..k])
    {
      var line, name := RowText(k + 1, rows[k], fmt);
      assert rows[..k + 1][..k] == rows[..k];
      if line.None? {
        assert LinesOf(rows[..k + 1], fmt).None?;
        LinesNone(rows, k + 1, fmt);
        return None;
      }
      lines := lines + [line.value];
      chips := chips + [name];
      UpdateRow(rows, k);
      params := Update(params, RowEntries(k + 1, Fields(rows[k])));
      k := k + 1;
    }
    assert rows[..k] == rows;
    return Some(Rendering(lines, chips, params));
  }

  /** `rows[:3]`, then the loop over them. */
  method RenderTop(rows: seq<Value>, fmt: Format) returns (res: Option<Rendering>)
    ensures res == Render(rows[..Min(3, |rows|)], fmt)
  {
    res := RenderRows(rows[..Min(3, |rows|)], fmt);
  }

  // ---------------------------------------------------------------------------
  // The reply
  // ---------------------------------------------------------------------------

  /** `data` if it is a list, else `data.get("results", [])`; None when `data` has no `.get`. */
  function RowsOf(data: Value): Option<Value> {
    if data.List? then Some(data)
    else if data.Obj? then Some(Get(data.fields, "results", List([])))
    else None
  }

  /** The header line, then the row lines, as one message, the chips as a second one, and `out_params`. */
  function FoundReply(zip: Value, rd: Rendering): Value {
    Obj([("fulfillment_response", Obj([("messages", List([
          TextMessage(Join("\n", ["Here are the 3 closest distributors for " + PyStr(zip) + ":"] + rd.lines)),
          Obj([("payload", Obj([("chips", List(rd.chips))]))])]))])),
         ("sessionInfo", Obj([("parameters", Obj(rd.params))]))])
  }

  /** The reply to the service's decoded answer `data` for the ZIP `zip`. */
  function Answer(zip: Value, data: Value, fmt: Format): Reply {
    match RowsOf(data)
    case None => Crash
    case Some(rows) =>
      if !Truthy(rows) then Json(TextReply("No nearby distributors found for " + PyStr(zip) + "."))
      else if !rows.List? then Crash
      else match Render(rows.items[..Min(3, |rows.items|)], fmt)
        case None => Crash
        case Some(rd) => Json(FoundReply(zip, rd))
  }

  /**
    A list answer of `n` rows whose first `min(3, n)` render shows those rows,
    with one chip each, in order, and their values under `dist_1_*` up to
    `dist_<min(3, n)>_*` and under no other `dist_<i>_*` key.
   */
  lemma AnswerRenders(zip: Value, rows: seq<Value>, fmt: Format)
    requires rows != [] && RowsOk(rows[..Min(3, |rows|)], fmt)
    ensures LinesOf(rows[..Min(3, |rows|)], fmt).Some?
    ensures Answer(zip, List(rows), fmt) == Json(FoundReply(zip, Rendering(LinesOf(rows[..Min(3, |rows|)], fmt).value,
      Chips(rows[..Min(3, |rows|)]), OutParams(rows[..Min(3, |rows|)]))))
  {
    LinesOfRows(rows[..Min(3, |rows|)], fmt);
  }

  /**
    The first `min(3, n)` rows of an answer show in order, with one chip
    each, and their values under `dist_1_*` up to `dist_<min(3, n)>_*` and
    under no other `dist_<i>_*` key.
   */
  lemma TopRowsShown(rows: seq<Value>)
    ensures |Chips(rows[..Min(3, |rows|)])| == Min(3, |rows|)
    ensures forall j :: 0 <= j < Min(3, |rows|) ==> Chips(rows[..Min(3, |rows|)])[j] == RowName(Fields(rows[j]))
    ensures forall i: nat, field :: 1 <= i <= 9 && RowField(field) ==>
      Lookup(OutParams(rows[..Min(3, |rows|)]), DistKey(i, field)) ==
        if i <= Min(3, |rows|) then Some(RowValue(Fields(rows[i - 1]), field)) else None
  {
    var top := rows[..Min(3, |rows|)];
    ChipsAt(top);
    OutParamsKeys(top);
    assert forall i :: 0 <= i < |top| ==> top[i] == rows[i];
  }

  /**
    An empty list, a dict without `results` or with falsy `results` gets the
    "none found" text; an answer that is neither a list nor a dict, or a row
    among the first three that raises, gets an error.
   */
  lemma AnswerCases(zip: Value, data: Value, fmt: Format)
    ensures data == List([]) || (data.Obj? && !Truthy(Get(data.fields, "results", List([])))) ==>
      Answer(zip, data, fmt) == Json(TextReply("No nearby distributors found for " + PyStr(zip) + "."))
    ensures !data.List? && !data.Obj? ==> Answer(zip, data, fmt) == Crash
    ensures data.List? && data.items != [] && !RowsOk(data.items[..Min(3, |data.items|)], fmt) ==>
      Answer(zip, data, fmt) == Crash
  {
    if data.List? {
      LinesOfRows(data.items[..Min(3, |data.items|)], fmt);
    }
  }

  /**
    The handler after its tag and configuration guards, for the parameters
    `f` and the service URL `url`: ask for the ZIP when there is none,
    otherwise post it once and answer from the result.
   */
  function AfterGuards(f: seq<(string, Value)>, url: string, post: Result<Value, string>, fmt: Format): Outcome {
    var zip := ZipOf(f);
    if !Truthy(zip) then Say(AskForZip)
    else match post
      case Err(e) => Outcome(Json(TextReply("Error finding distributors: " + e)), [ZipRequest(url, zip)])
      case Ok(data) => Outcome(Answer(zip, data, fmt), [ZipRequest(url, zip)])
  }

  /**
    `webhook(req)`, where `fdUrl` is `FIND_DISTRIBUTORS_URL` as read from the
    environment. The ZIP is read before the guards, so parameters that are
    not a dict raise even when the tag belongs to another handler.
   */
  method Handle(body: Value, fdUrl: Option<string>, post: Result<Value, string>, fmt: Format) returns (out: Outcome)
    ensures !ParamsOf(body).Obj? ==> out == Outcome(Crash, [])
    ensures ParamsOf(body).Obj? && TagRejected(TagOf(body), HandlerTag) ==> out == Say(UnhandledTag(TagOf(body)))
    ensures ParamsOf(body).Obj? && !TagRejected(TagOf(body), HandlerTag) && !Configured(fdUrl) ==> out == Say(Misconfig)
    ensures ParamsOf(body).Obj? && !TagRejected(TagOf(body), HandlerTag) && Configured(fdUrl) ==>
      out == AfterGuards(ParamsOf(body).fields, fdUrl.value, post, fmt)
  {
    var tag, params := ReadRequest(body);
    if !params.Obj? {
      return Outcome(Crash, []);
    }
    var zip := ZipOf(params.fields);
    if TagRejected(tag, HandlerTag) {
      return Say(UnhandledTag(tag));
    }
    if !Configured(fdUrl) {
      return Say(Misconfig);
    }
    if !Truthy(zip) {
      return Say(AskForZip);
    }
    var call := ZipRequest(fdUrl.value, zip);
    if post.Err? {
      return Outcome(Json(TextReply("Error finding distributors: " + post.error)), [call]);
    }
    var rows := RowsOf(post.value);
    if rows.None? {
      return Outcome(Crash, [call]);
    }
    if !Truthy(rows.value) {
      return Outcome(Json(TextReply("No nearby distributors found for " + PyStr(zip) + ".")), [call]);
    }
    if !rows.value.List? {
      return Outcome(Crash, [call]);
    }
    var rd := RenderTop(rows.value.items, fmt);
    if rd.None? {
      return Outcome(Crash, [call]);
    }
    out := Outcome(Json(FoundReply(zip, rd.value)), [call]);
  }

  /**
    At most one request goes out, only past all three guards, and it carries
    exactly the stringified ZIP.
   */
  lemma AfterGuardsCalls(f: seq<(string, Value)>, url: string, post: Result<Value, string>, fmt: Format)
    ensures AfterGuards(f, url, post, fmt).calls == if Truthy(ZipOf(f)) then [ZipRequest(url, ZipOf(f))] else []
    ensures !Truthy(ZipOf(f)) ==> AfterGuards(f, url, post, fmt).reply == Json(TextReply(AskForZip))
    ensures ZipRequest(url, ZipOf(f)).payload.fields == [("zip_code", Str(PyStr(ZipOf(f))))]
  {
  }
}
