/**
  The calculate-materials webhook wrapper: after the tag and configuration
  guards it loads the QuickMeasure PDF (an https URL wins over a `gs://` URI),
  posts it to the backend, and renders the bill of materials it gets back as
  one message line per item, keeping the items in the session.

  The download and the backend call are inputs: `fetch` is what the GET or
  the blob download gave (the bytes or the exception's text), `post` what the
  backend answered (its decoded JSON or the exception's text).
 */
module CalcWrapper {
  import opened Wrappers
  import opened Json
  import opened TextUtil
  import opened Webhook

  const HandlerTag: string := "calculate_materials"
  const Misconfig: string := "Server misconfig: CALCULATE_MATERIALS_URL not set."
  const AskForPdf: string := "Please paste your GAF QuickMeasure PDF link (https or gs://)."
  const NoBom: string := "I couldn’t create a BOM from that PDF. Can you confirm the file?"
  const BomHeader: string := "Here’s your draft Bill of Materials:"
  const NoSourceError: string := "No valid report source provided (need https URL or gs:// URI)."

  // ---------------------------------------------------------------------------
  // `_load_pdf_bytes`: where the PDF comes from
  // ---------------------------------------------------------------------------

  /** The Python type name of a value, as error messages print it. */
  function TypeName(v: Value): string {
    match v
    case Null => "NoneType"
    case Bool(_) => "bool"
    case Int(_) => "int"
    case Float(_) => "float"
    case Str(_) => "str"
    case List(_) => "list"
    case Obj(_) => "dict"
  }

  /** `bucket_name, *rest = path.split("/", 1)` with `blob_name = rest[0] if rest else ""`. */
  function SplitBucket(path: string): (r: (string, string))
    ensures '/' !in r.0
    ensures '/' in path ==> r.0 + "/" + r.1 == path
    ensures '/' !in path ==> r == (path, "")
  {
    if path == [] then ("", "")
    else if path[0] == '/' then
      assert path == "/" + path[1..];
      ("", path[1..])
    else
      var r := SplitBucket(path[1..]);
      assert path == [path[0]] + path[1..];
      ([path[0]] + r.0, r.1)
  }

  /**
    The request `_load_pdf_bytes(report_url, gcs_uri)` makes, or the text of
    the exception it raises: a truthy `report_url` is fetched whatever it is;
    otherwise a `gs://` string names a blob; anything else raises.
   */
  function PdfSource(reportUrl: Value, gcsUri: Value): Result<Call, string> {
    if Truthy(reportUrl) then Ok(HttpGet(reportUrl))
    else if !Truthy(gcsUri) then Err(NoSourceError)
    else if !gcsUri.Str? then Err("'" + TypeName(gcsUri) + "' object has no attribute 'startswith'")
    else if StartsWith(gcsUri.s, "gs://") then
      var split := SplitBucket(gcsUri.s[5..]);
      Ok(GcsDownload(split.0, split.1))
    else Err(NoSourceError)
  }

  /**
    An https URL wins over a `gs://` URI; `gs://b/rest` names bucket `b` and
    blob `rest`; `gs://b` names bucket `b` and the blob `""`; with no truthy
    source the ValueError is raised.
   */
  lemma PdfSourceCases(reportUrl: Value, gcsUri: Value, bucket: string, blob: string)
    requires '/' !in bucket
    ensures Truthy(reportUrl) ==> PdfSource(reportUrl, gcsUri) == Ok(HttpGet(reportUrl))
    ensures !Truthy(reportUrl) && gcsUri == Str("gs://" + bucket + "/" + blob) ==>
      PdfSource(reportUrl, gcsUri) == Ok(GcsDownload(bucket, blob))
    ensures !Truthy(reportUrl) && gcsUri == Str("gs://" + bucket) ==>
      PdfSource(reportUrl, gcsUri) == Ok(GcsDownload(bucket, ""))
    ensures !Truthy(reportUrl) && !Truthy(gcsUri) ==> PdfSource(reportUrl, gcsUri) == Err(NoSourceError)
  {
    if !Truthy(reportUrl) && gcsUri == Str("gs://" + bucket + "/" + blob) {
      var s := gcsUri.s;
      assert s[..5] == "gs://";
      var path := s[5..];
      assert path == bucket + "/" + blob;
      SplitBucketOf(bucket, blob);
    }
    if !Truthy(reportUrl) && gcsUri == Str("gs://" + bucket) {
      var s := gcsUri.s;
      assert s[..5] == "gs://";
      assert s[5..] == bucket;
    }
  }

  /** Splitting `bucket + "/" + blob` at its first `/` gives back the bucket and the blob. */
  lemma {:induction false} SplitBucketOf(bucket: string, blob: string)
    requires '/' !in bucket
    ensures SplitBucket(bucket + "/" + blob) == (bucket, blob)
    decreases |bucket|
  {
    var path := bucket + "/" + blob;
    if bucket == [] {
      assert path[1..] == blob;
    } else {
      assert path[0] == bucket[0];
      assert path[1..] == bucket[1..] + "/" + blob;
      SplitBucketOf(bucket[1..], blob);
      assert bucket == [bucket[0]] + bucket[1..];
    }
  }

  // ---------------------------------------------------------------------------
  // The backend's answer
  // ---------------------------------------------------------------------------

  /** `data.get("calculated_bom") or data.get("bom")` for a dict, else the list itself when that gave nothing. */
  function BackendItems(data: Value): Value {
    var items := if data.Obj? then Or(Get(data.fields, "calculated_bom", Null), Get(data.fields, "bom", Null)) else Null;
    if !Truthy(items) && data.List? then data else items
  }

  /** `data.get("zip_code") or data.get("job_zip")`, for a dict only. */
  function BackendZip(data: Value): Value {
    if data.Obj? then Or(Get(data.fields, "zip_code", Null), Get(data.fields, "job_zip", Null)) else Null
  }

  /** `data.get("job_address") or data.get("address")`, for a dict only. */
  function BackendAddress(data: Value): Value {
    if data.Obj? then Or(Get(data.fields, "job_address", Null), Get(data.fields, "address", Null)) else Null
  }

  /** The items of a dict answer come from `calculated_bom`, else `bom`; a list answer is its own items. */
  lemma BackendItemsCases(data: Value)
    ensures data.Obj? && Truthy(Get(data.fields, "calculated_bom", Null)) ==>
      BackendItems(data) == Get(data.fields, "calculated_bom", Null)
    ensures data.Obj? && !Truthy(Get(data.fields, "calculated_bom", Null)) ==>
      BackendItems(data) == Get(data.fields, "bom", Null)
    ensures data.List? ==> BackendItems(data) == data
    ensures !data.Obj? && !data.List? ==> !Truthy(BackendItems(data))
  {
  }

  // ---------------------------------------------------------------------------
  // The message: one line per item
  // ---------------------------------------------------------------------------

  /** `it.get("Product") or it.get("product") or it.get("name") or "Item"`. */
  function ItemName(f: seq<(string, Value)>): Value {
    Or(Or(Or(Get(f, "Product", Null), Get(f, "product", Null)), Get(f, "name", Null)), Str("Item"))
  }

  /** `it.get("Quantity") or it.get("qty") or it.get("quantity")`. */
  function ItemQty(f: seq<(string, Value)>): Value {
    Or(Or(Get(f, "Quantity", Null), Get(f, "qty", Null)), Get(f, "quantity", Null))
  }

  /** `it.get("Unit") or it.get("unit") or ""`. */
  function ItemUnit(f: seq<(string, Value)>): Value {
    Or(Or(Get(f, "Unit", Null), Get(f, "unit", Null)), Str(""))
  }

  /** `it.get("Color") or it.get("color")`. */
  function ItemColor(f: seq<(string, Value)>): Value {
    Or(Get(f, "Color", Null), Get(f, "color", Null))
  }

  /** The `(color)` part of a line, present only for a truthy color. */
  function ColorPart(f: seq<(string, Value)>): string {
    if Truthy(ItemColor(f)) then " (" + PyStr(ItemColor(f)) + ")" else ""
  }

  /** The `: qty unit` part of a line, right-stripped, present only when the quantity is not None. */
  function QtyPart(f: seq<(string, Value)>): string {
    if ItemQty(f) != Null then RStrip(": " + PyStr(ItemQty(f)) + " " + PyStr(ItemUnit(f))) else ""
  }

  /** The line for one item. */
  function ItemLabel(f: seq<(string, Value)>): string {
    "• " + PyStr(ItemName(f)) + ColorPart(f) + QtyPart(f)
  }

  function Labels(items: seq<Value>): (ls: seq<string>)
    ensures |ls| == |items|
    ensures forall k {:trigger ls[k]} :: 0 <= k < |items| ==> ls[k] == ItemLabel(Fields(items[k]))
  {
    seq(|items|, k requires 0 <= k < |items| => ItemLabel(Fields(items[k])))
  }

  /**
    The name is the first truthy of `Product`, `product` and `name`, else
    "Item"; a quantity that is falsy under every key (a 0 under `Quantity`
    with no other key, say) leaves the line without its quantity part.
   */
  lemma LabelFallbacks(f: seq<(string, Value)>)
    ensures Truthy(Get(f, "Product", Null)) ==> ItemName(f) == Get(f, "Product", Null)
    ensures !Truthy(Get(f, "Product", Null)) && Truthy(Get(f, "product", Null)) ==> ItemName(f) == Get(f, "product", Null)
    ensures !Truthy(Get(f, "Product", Null)) && !Truthy(Get(f, "product", Null)) && Truthy(Get(f, "name", Null)) ==>
      ItemName(f) == Get(f, "name", Null)
    ensures !Truthy(Get(f, "Product", Null)) && !Truthy(Get(f, "product", Null)) && !Truthy(Get(f, "name", Null)) ==>
      ItemName(f) == Str("Item")
    ensures !Truthy(Get(f, "Quantity", Null)) && !Truthy(Get(f, "qty", Null)) && Get(f, "quantity", Null) == Null ==>
      ItemLabel(f) == "• " + PyStr(ItemName(f)) + ColorPart(f)
  {
  }

  // ---------------------------------------------------------------------------
  // Session parameters and the reply
  // ---------------------------------------------------------------------------

  /** `{"bom_items": items}`, then `"zip-code"` and `"job_address"` each only when truthy. */
  function SessionParams(items: Value, jobZip: Value, jobAddr: Value): Value {
    Obj([("bom_items", items)]
        + (if Truthy(jobZip) then [("zip-code", Str(PyStr(jobZip)))] else [])
        + (if Truthy(jobAddr) then [("job_address", jobAddr)] else []))
  }

  /** The items are always kept; the ZIP (as a string) and the address only when truthy. */
  lemma SessionParamsKeys(items: Value, jobZip: Value, jobAddr: Value)
    ensures Lookup(SessionParams(items, jobZip, jobAddr).fields, "bom_items") == Some(items)
    ensures Lookup(SessionParams(items, jobZip, jobAddr).fields, "zip-code") ==
      if Truthy(jobZip) then Some(Str(PyStr(jobZip))) else None
    ensures Lookup(SessionParams(items, jobZip, jobAddr).fields, "job_address") ==
      if Truthy(jobAddr) then Some(jobAddr) else None
  {
    var z: seq<(string, Value)> := if Truthy(jobZip) then [("zip-code", Str(PyStr(jobZip)))] else [];
    var a: seq<(string, Value)> := if Truthy(jobAddr) then [("job_address", jobAddr)] else [];
    assert SessionParams(items, jobZip, jobAddr).fields == [("bom_items", items)] + (z + a);
    LookupAppend([("bom_items", items)], z + a, "zip-code");
    LookupAppend([("bom_items", items)], z + a, "job_address");
    LookupAppend(z, a, "zip-code");
    LookupAppend(z, a, "job_address");
    assert "bom_items"[0] != "zip-code"[0] && "bom_items"[0] != "job_address"[0];
    assert "job_address"[0] != "zip-code"[0];
  }

  /** The success reply: the joined lines as the message, the session parameters beside it. */
  function BomReply(lines: seq<string>, params: Value): Value {
    Obj([("fulfillment_response", Obj([("messages", List([TextMessage(Join("\n", lines))]))])),
         ("sessionInfo", Obj([("parameters", params)]))])
  }

  /** `params.get("report_url") or params.get("pdf_url")`. */
  function ReportUrl(f: seq<(string, Value)>): Value {
    Or(Get(f, "report_url", Null), Get(f, "pdf_url", Null))
  }

  /** `params.get("report_gcs_uri")`. */
  function ReportGcs(f: seq<(string, Value)>): Value {
    Get(f, "report_gcs_uri", Null)
  }

  /** The items are a list of dicts, which the line loop can walk without raising. */
  predicate AllDicts(items: seq<Value>) {
    forall k :: 0 <= k < |items| ==> items[k].Obj?
  }

  /** The reply to the backend's decoded answer `data`. */
  function Answer(data: Value): Reply {
    var items := BackendItems(data);
    if !Truthy(items) then Json(TextReply(NoBom))
    else if !items.List? || !AllDicts(items.items) then Crash
    else Json(BomReply([BomHeader] + Labels(items.items), SessionParams(items, BackendZip(data), BackendAddress(data))))
  }

  /**
    The handler after its tag and configuration guards, for the parameters
    `params` and the service URL `url`: ask for the PDF when there is no
    source, then load it, post it, and answer from what the backend returned.
   */
  function AfterGuards(params: Value, url: string, fetch: Result<seq<bv8>, string>, post: Result<Value, string>): Outcome {
    if !params.Obj? then Outcome(Crash, [])
    else if !Truthy(ReportUrl(params.fields)) && !Truthy(ReportGcs(params.fields)) then Say(AskForPdf)
    else
      match PdfSource(ReportUrl(params.fields), ReportGcs(params.fields))
      case Err(e) => Say("Couldn’t read the PDF: " + e)
      case Ok(load) =>
        match fetch
        case Err(e) => Outcome(Json(TextReply("Couldn’t read the PDF: " + e)), [load])
        case Ok(pdf) =>
          match post
          case Err(e) => Outcome(Json(TextReply("Error creating BOM: " + e)), [load, PostFile(url, pdf)])
          case Ok(data) => Outcome(Answer(data), [load, PostFile(url, pdf)])
  }

  /**
    No request goes out when no source is given; otherwise the first request
    is the load of the source `_load_pdf_bytes` picks, and the second, only
    after the PDF was loaded, posts those bytes to the service URL.
   */
  lemma AfterGuardsCalls(params: Value, url: string, fetch: Result<seq<bv8>, string>, post: Result<Value, string>)
    ensures params.Obj? && !Truthy(ReportUrl(params.fields)) && !Truthy(ReportGcs(params.fields)) ==>
      AfterGuards(params, url, fetch, post) == Say(AskForPdf)
    ensures |AfterGuards(params, url, fetch, post).calls| <= 2
    ensures AfterGuards(params, url, fetch, post).calls != [] ==>
      params.Obj? && PdfSource(ReportUrl(params.fields), ReportGcs(params.fields)) == Ok(AfterGuards(params, url, fetch, post).calls[0])
    ensures |AfterGuards(params, url, fetch, post).calls| == 2 ==>
      fetch.Ok? && AfterGuards(params, url, fetch, post).calls[1] == PostFile(url, fetch.value)
  {
  }

  /** The success reply reads back as the joined lines... */
  lemma BomReplyText(lines: seq<string>, params: Value)
    ensures FirstText(BomReply(lines, params)) == Some(Join("\n", lines))
  {
    var msgs := List([TextMessage(Join("\n", lines))]);
    assert Resolve(BomReply(lines, params), ["fulfillment_response", "messages"]) == Some(msgs) by {
      assert ["fulfillment_response", "messages"][1..] == ["messages"];
    }
    TextReplyReads(Join("\n", lines));
  }

  /** ...with the session parameters beside them. */
  lemma BomReplyParams(lines: seq<string>, params: Value)
    ensures Resolve(BomReply(lines, params), ["sessionInfo", "parameters"]) == Some(params)
  {
    var fs := BomReply(lines, params).fields;
    assert fs[0].0 != "sessionInfo";
    assert fs[1..] == [("sessionInfo", Obj([("parameters", params)]))];
    assert Lookup(fs, "sessionInfo") == Some(Obj([("parameters", params)]));
    assert Lookup([("parameters", params)], "parameters") == Some(params);
    assert ["sessionInfo", "parameters"][1..] == ["parameters"];
  }

  /** The body of the label loop for one item: the name, then the color part, then the quantity part. */
  method BuildLine(items: seq<Value>, k: nat) returns (line: string)
    requires k < |items| && items[k].Obj?
    ensures line == Labels(items)[k]
  {
    var it := items[k].fields;
    var name := ItemName(it);
    var qty := ItemQty(it);
    var unit := ItemUnit(it);
    var color := ItemColor(it);
    line := "• " + PyStr(name);
    if Truthy(color) {
      line := line + (" (" + PyStr(color) + ")");
    }
    if qty != Null {
      line := line + RStrip(": " + PyStr(qty) + " " + PyStr(unit));
    }
  }

  /** The line loop, which raises at the first item that is not a dict. */
  method BuildLines(items: seq<Value>) returns (lines: Option<seq<string>>)
    ensures AllDicts(items) ==> lines == Some([BomHeader] + Labels(items))
    ensures !AllDicts(items) ==> lines == None
  {
    ghost var want := Labels(items);
    var acc := [BomHeader];
    var k := 0;
    while k < |items|
      invariant 0 <= k <= |items|
      invariant AllDicts(items[..k])
      invariant |acc| == k + 1 && acc[0] == BomHeader
      invariant forall j :: 0 <= j < k ==> acc[j + 1] == want[j]
    {
      if !items[k].Obj? {
        assert !AllDicts(items);
        return None;
      }
      var line := BuildLine(items, k);
      assert items[..k + 1] == items[..k] + [items[k]];
      acc := acc + [line];
      k := k + 1;
    }
    assert items[..k] == items;
    assert acc == [BomHeader] + want;
    return Some(acc);
  }

  /**
    `webhook(req)`: the tag guard, the configuration guard, then the rest,
    where `cmUrl` is `CALCULATE_MATERIALS_URL` as read from the environment.
   */
  method Handle(body: Value, cmUrl: Option<string>, fetch: Result<seq<bv8>, string>, post: Result<Value, string>)
    returns (out: Outcome)
    ensures TagRejected(TagOf(body), HandlerTag) ==> out == Say(UnhandledTag(TagOf(body)))
    ensures !TagRejected(TagOf(body), HandlerTag) && !Configured(cmUrl) ==> out == Say(Misconfig)
    ensures !TagRejected(TagOf(body), HandlerTag) && Configured(cmUrl) ==>
      out == AfterGuards(ParamsOf(body), cmUrl.value, fetch, post)
  {
    var tag, params := ReadRequest(body);
    if TagRejected(tag, HandlerTag) {
      return Say(UnhandledTag(tag));
    }
    if !Configured(cmUrl) {
      return Say(Misconfig);
    }
    if !params.Obj? {
      return Outcome(Crash, []);
    }
    var reportUrl := ReportUrl(params.fields);
    var reportGcs := ReportGcs(params.fields);
    if !(Truthy(reportUrl) || Truthy(reportGcs)) {
      return Say(AskForPdf);
    }
    var source := PdfSource(reportUrl, reportGcs);
    if source.Err? {
      return Say("Couldn’t read the PDF: " + source.error);
    }
    if fetch.Err? {
      return Outcome(Json(TextReply("Couldn’t read the PDF: " + fetch.error)), [source.value]);
    }
    var calls := [source.value, PostFile(cmUrl.value, fetch.value)];
    if post.Err? {
      return Outcome(Json(TextReply("Error creating BOM: " + post.error)), calls);
    }
    var data := post.value;
    var items := BackendItems(data);
    var jobZip := BackendZip(data);
    var jobAddr := BackendAddress(data);
    if !Truthy(items) {
      return Outcome(Json(TextReply(NoBom)), calls);
    }
    if !items.List? {
      return Outcome(Crash, calls);
    }
    var lines := BuildLines(items.items);
    if lines.None? {
      return Outcome(Crash, calls);
    }
    out := Outcome(Json(BomReply(lines.value, SessionParams(items, jobZip, jobAddr))), calls);
  }
}
