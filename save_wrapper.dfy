/**
  The Dialogflow CX webhook that answers a `save_bom` tag: it takes the BOM
  items and a job address from the session parameters, posts them to the
  save service, and reports how many items the service saved.
 */
module SaveWrapper {
  import opened Wrappers
  import opened Json
  import opened Webhook

  const HandlerTag: string := "save_bom"
  const Misconfig: string := "Server misconfig: SAVE_BOM_URL not set."
  const NothingToSave: string := "I don’t have any BOM items to save yet."
  const UnknownJob: string := "Unknown Job"

  /** `params.get("bom_items") or []`. */
  function BomItems(f: seq<(string, Value)>): Value {
    Or(Get(f, "bom_items", Null), List([]))
  }

  /** `params.get("job_address") or params.get("address") or params.get("zip-code") or "Unknown Job"`. */
  function JobAddress(f: seq<(string, Value)>): Value {
    Or(Or(Or(Get(f, "job_address", Null), Get(f, "address", Null)), Get(f, "zip-code", Null)), Str(UnknownJob))
  }

  /** The job address is the first truthy of `job_address`, `address` and `zip-code`, else "Unknown Job". */
  lemma JobAddressFallback(f: seq<(string, Value)>)
    ensures Truthy(Get(f, "job_address", Null)) ==> JobAddress(f) == Get(f, "job_address", Null)
    ensures !Truthy(Get(f, "job_address", Null)) && Truthy(Get(f, "address", Null)) ==>
      JobAddress(f) == Get(f, "address", Null)
    ensures !Truthy(Get(f, "job_address", Null)) && !Truthy(Get(f, "address", Null)) ==>
      (Truthy(Get(f, "zip-code", Null)) ==> JobAddress(f) == Get(f, "zip-code", Null))
    ensures !Truthy(Get(f, "job_address", Null)) && !Truthy(Get(f, "address", Null)) ==>
      (!Truthy(Get(f, "zip-code", Null)) ==> JobAddress(f) == Str(UnknownJob))
    ensures Truthy(JobAddress(f))
  {
  }

  /** The items to save are the `bom_items` parameter when it is truthy, and nothing otherwise. */
  lemma BomItemsFallback(f: seq<(string, Value)>)
    ensures Truthy(Get(f, "bom_items", Null)) ==> BomItems(f) == Get(f, "bom_items", Null)
    ensures Truthy(BomItems(f)) <==> Truthy(Get(f, "bom_items", Null))
  {
  }

  /** `{"job_address": job_address, "bom_items": bom_items}`. */
  function SavePayload(jobAddress: Value, items: Value): Value {
    Obj([("job_address", jobAddress), ("bom_items", items)])
  }

  /** The payload has the two keys `job_address` and `bom_items`, with the given values, and no other. */
  lemma SavePayloadKeys(jobAddress: Value, items: Value, key: string)
    ensures |SavePayload(jobAddress, items).fields| == 2
    ensures Lookup(SavePayload(jobAddress, items).fields, "job_address") == Some(jobAddress)
    ensures Lookup(SavePayload(jobAddress, items).fields, "bom_items") == Some(items)
    ensures key != "job_address" && key != "bom_items" ==> Lookup(SavePayload(jobAddress, items).fields, key).None?
  {
    var fs := SavePayload(jobAddress, items).fields;
    assert fs[1..] == [("bom_items", items)];
    assert fs[1..][1..] == [];
    assert Lookup(fs[1..], key) == if key == "bom_items" then Some(items) else Lookup([], key);
  }

  /** `f"Saved {saved} item(s) to Generated BOMs for '{job_address}'."`. */
  function SavedText(saved: string, jobAddress: Value): string {
    "Saved " + saved + " item(s) to Generated BOMs for '" + PyStr(jobAddress) + "'."
  }

  /** The success message, with `saved = data.get("saved") or 0`. */
  function SavedMessage(jobAddress: Value, f: seq<(string, Value)>): string {
    SavedText(PyStr(Or(Get(f, "saved", Null), Int(0))), jobAddress)
  }

  /** The reply to the service's decoded answer `data`; `data.get` raises when it is not a dict. */
  function Answer(jobAddress: Value, data: Value): Reply {
    if data.Obj? then Json(TextReply(SavedMessage(jobAddress, data.fields))) else Crash
  }

  /** A saved count that is missing or falsy reads as 0, a truthy one as itself; the address is quoted. */
  lemma AnswerCount(jobAddress: Value, data: Value)
    ensures data.Obj? && !Truthy(Get(data.fields, "saved", Null)) ==>
      Answer(jobAddress, data) == Json(TextReply(SavedText("0", jobAddress)))
    ensures data.Obj? && Truthy(Get(data.fields, "saved", Null)) ==>
      Answer(jobAddress, data) == Json(TextReply(SavedText(PyStr(Get(data.fields, "saved", Null)), jobAddress)))
    ensures !data.Obj? ==> Answer(jobAddress, data) == Crash
  {
    assert IntToDecimal(0) == "0";
  }

  /**
    The handler after its tag and configuration guards, for the parameters
    `params` and the service URL `url`: prompt when there is nothing to save,
    otherwise post the payload once and answer from the result.
   */
  function AfterGuards(params: Value, url: string, post: Result<Value, string>): Outcome {
    if !params.Obj? then Outcome(Crash, [])
    else
      var items := BomItems(params.fields);
      var jobAddress := JobAddress(params.fields);
      if !Truthy(items) then Say(NothingToSave)
      else
        var call := PostJson(url, SavePayload(jobAddress, items));
        match post
        case Err(e) => Outcome(Json(TextReply("Save failed: " + e)), [call])
        case Ok(data) => Outcome(Answer(jobAddress, data), [call])
  }

  /**
    A request goes out exactly when the parameters are a dict with truthy
    `bom_items`, and then it is the one POST of the items and the job
    address to the service URL; without items the user is prompted.
   */
  lemma AfterGuardsCalls(params: Value, url: string, post: Result<Value, string>)
    ensures AfterGuards(params, url, post).calls != [] <==> params.Obj? && Truthy(BomItems(params.fields))
    ensures AfterGuards(params, url, post).calls != [] ==>
      AfterGuards(params, url, post).calls ==
        [PostJson(url, SavePayload(JobAddress(params.fields), BomItems(params.fields)))]
    ensures params.Obj? && !Truthy(BomItems(params.fields)) ==> AfterGuards(params, url, post) == Say(NothingToSave)
    ensures params.Obj? && Truthy(BomItems(params.fields)) && post.Err? ==>
      AfterGuards(params, url, post).reply == Json(TextReply("Save failed: " + post.error))
  {
  }

  /**
    `webhook(req)`: the tag guard, the configuration guard, then the rest,
    where `saveUrl` is `SAVE_BOM_URL` as read from the environment and `post`
    the outcome of the POST (an error when it raises, including a status
    error or a body that is not JSON).
   */
  method Handle(body: Value, saveUrl: Option<string>, post: Result<Value, string>) returns (out: Outcome)
    ensures TagRejected(TagOf(body), HandlerTag) ==> out == Say(UnhandledTag(TagOf(body)))
    ensures !TagRejected(TagOf(body), HandlerTag) && !Configured(saveUrl) ==> out == Say(Misconfig)
    ensures !TagRejected(TagOf(body), HandlerTag) && Configured(saveUrl) ==>
      out == AfterGuards(ParamsOf(body), saveUrl.value, post)
  {
    var tag, params := ReadRequest(body);
    if TagRejected(tag, HandlerTag) {
      return Say(UnhandledTag(tag));
    }
    if !Configured(saveUrl) {
      return Say(Misconfig);
    }
    if !params.Obj? {
      return Outcome(Crash, []);
    }
    var items := BomItems(params.fields);
    var jobAddress := JobAddress(params.fields);
    if !Truthy(items) {
      return Say(NothingToSave);
    }
    var call := PostJson(saveUrl.value, SavePayload(jobAddress, items));
    if post.Err? {
      return Outcome(Json(TextReply("Save failed: " + post.error)), [call]);
    }
    var data := post.value;
    if !data.Obj? {
      return Outcome(Crash, [call]);
    }
    var saved := Or(Get(data.fields, "saved", Null), Int(0));
    var msg := SavedText(PyStr(saved), jobAddress);
    out := Outcome(Json(TextReply(msg)), [call]);
  }
}
