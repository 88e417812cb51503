/**
  The `calculate-materials` service: its configuration, read once from a JSON
  environment value, and its `/calculate` endpoint, which resolves the system
  and shingle-color selections against the configured defaults and echoes
  the job's measurements back with an empty BOM.
 */
module CalculateMaterials {
  import opened Wrappers
  import opened Json
  import opened Webhook

  const DefaultSystem: string := "hdz_basic_static"
  const DefaultColor: string := "Charcoal"
  /** The waste percentage used when the defaults carry none: the Python float `3.0`. */
  const DefaultWaste: Value := Float("3.0")

  /** `json.loads(raw)`: the decoded value, or None when the text is not JSON. */
  type Parse = string -> Option<Value>

  /** `float(x)`: the float, or None when the conversion raises. */
  type FloatCast = Value -> Option<Value>

  /** `_safe_json(key)`, where `raw` is the environment value, if set. */
  function SafeJson(raw: Option<string>, parse: Parse): Value {
    if raw.None? || raw.value == "" then EmptyObj
    else match parse(raw.value)
      case None => EmptyObj
      case Some(v) => v
  }

  /** An unset or empty value, and one that is not JSON, read as `{}`; anything else as what it decodes to. */
  lemma SafeJsonCases(raw: Option<string>, parse: Parse)
    ensures raw.None? ==> SafeJson(raw, parse) == EmptyObj
    ensures raw == Some("") ==> SafeJson(raw, parse) == EmptyObj
    ensures raw.Some? && raw.value != "" && parse(raw.value).None? ==> SafeJson(raw, parse) == EmptyObj
    ensures raw.Some? && raw.value != "" && parse(raw.value).Some? ==> SafeJson(raw, parse) == parse(raw.value).value
  {
  }

  /** `CALC.get("defaults") or {}`; None when `CALC` has no `.get` and the service fails to start. */
  function Defaults(config: Value): Option<Value> {
    if config.Obj? then Some(Or(Get(config.fields, "defaults", Null), EmptyObj)) else None
  }

  /** Without a configuration, or with one that cannot be decoded, the defaults are `{}`. */
  lemma DefaultsWithoutConfig(raw: Option<string>, parse: Parse)
    requires raw.None? || raw.value == "" || parse(raw.value).None?
    ensures Defaults(SafeJson(raw, parse)) == Some(EmptyObj)
  {
  }

  /** `sel.get("value") or DEFAULTS.get(key) or fallback`. */
  function Chosen(sel: seq<(string, Value)>, defaults: seq<(string, Value)>, key: string, fallback: string): Value {
    Or(Or(Get(sel, "value", Null), Get(defaults, key, Null)), Str(fallback))
  }

  /** `sel.get("source", "default")`. */
  function SourceOf(sel: seq<(string, Value)>): Value {
    Get(sel, "source", Str("default"))
  }

  /**
    The selection's own truthy value wins, then a truthy default, then the
    built-in name; the source is copied whenever the selection has one, even
    a falsy one, and is "default" otherwise.
   */
  lemma ChosenFallback(sel: seq<(string, Value)>, defaults: seq<(string, Value)>, key: string, fallback: string)
    ensures Truthy(Get(sel, "value", Null)) ==> Chosen(sel, defaults, key, fallback) == Get(sel, "value", Null)
    ensures !Truthy(Get(sel, "value", Null)) && Truthy(Get(defaults, key, Null)) ==>
      Chosen(sel, defaults, key, fallback) == Get(defaults, key, Null)
    ensures !Truthy(Get(sel, "value", Null)) && !Truthy(Get(defaults, key, Null)) ==>
      Chosen(sel, defaults, key, fallback) == Str(fallback)
    ensures Lookup(sel, "source").Some? ==> SourceOf(sel) == Lookup(sel, "source").value
    ensures Lookup(sel, "source").None? ==> SourceOf(sel) == Str("default")
  {
  }

  /** `{"value": value, "source": sel.get("source", "default")}`. */
  function Selection(value: Value, sel: seq<(string, Value)>): Value {
    Obj([("value", value), ("source", SourceOf(sel))])
  }

  /** `payload.get(key) or {}`. */
  function Echo(p: seq<(string, Value)>, key: string): Value {
    Or(Get(p, key, Null), EmptyObj)
  }

  /** `{"key": k, "value": v, "source": "input"}`. */
  function VentEntry(k: string, v: Value): Value {
    Obj([("key", Str(k)), ("value", v), ("source", Str("input"))])
  }

  /** The `ventilation_raw` list: one entry per item of `openings`, in order. */
  function VentilationRaw(openings: seq<(string, Value)>): seq<Value>
    decreases |openings|
  {
    if openings == [] then [] else [VentEntry(openings[0].0, openings[0].1)] + VentilationRaw(openings[1..])
  }

  /** Exactly one entry per opening, at the same position, carrying its key and value and the source "input". */
  lemma {:induction false} VentilationRawAt(openings: seq<(string, Value)>)
    ensures |VentilationRaw(openings)| == |openings|
    ensures forall i :: 0 <= i < |openings| ==> VentilationRaw(openings)[i] == VentEntry(openings[i].0, openings[i].1)
    decreases |openings|
  {
    if openings != [] {
      VentilationRawAt(openings[1..]);
      assert forall i :: 1 <= i < |openings| ==> openings[1..][i - 1] == openings[i];
    }
  }

  /** The fields of the `/calculate` response, in the order the service writes them. */
  function Response(p: seq<(string, Value)>, sys: seq<(string, Value)>, color: seq<(string, Value)>,
                    defaults: seq<(string, Value)>, openings: seq<(string, Value)>, waste: Value): seq<(string, Value)>
  {
    [("job_address", Get(p, "job_address", Null)),
     ("zip_code", Get(p, "zip_code", Null)),
     ("selections", Obj([
       ("system_id", Selection(Chosen(sys, defaults, "system_id", DefaultSystem), sys)),
       ("shingle_color", Selection(Chosen(color, defaults, "shingle_color", DefaultColor), color))])),
     ("geometry", Echo(p, "geometry")),
     ("linears", Echo(p, "linears")),
     ("openings", Obj(openings)),
     ("ventilation_raw", List(VentilationRaw(openings))),
     ("bom_items", List([])),
     ("waste_pct_final", waste)]
  }

  /**
    `calculate(req)` for the decoded body `payload` and the configured
    `defaults`: a `.get` on something that is not a dict, an `.items()` on
    openings that are not a dict, or a waste value `float` rejects raises.
   */
  function Calculate(defaults: Value, payload: Value, toFloat: FloatCast): Reply {
    if !payload.Obj? then Crash
    else
      var selections := Echo(payload.fields, "selections");
      if !selections.Obj? then Crash
      else
        var sys := Get(selections.fields, "system_id", EmptyObj);
        var color := Get(selections.fields, "shingle_color", EmptyObj);
        var openings := Echo(payload.fields, "openings");
        if !sys.Obj? || !color.Obj? || !defaults.Obj? || !openings.Obj? then Crash
        else match toFloat(Get(defaults.fields, "waste_qc_pct", DefaultWaste))
          case None => Crash
          case Some(waste) =>
            Json(Obj(Response(payload.fields, sys.fields, color.fields, defaults.fields, openings.fields, waste)))
  }

  /** The request fails exactly when one of the values the endpoint reads through is not a dict, or `float` raises. */
  lemma CalculateCrashes(defaults: Value, payload: Value, toFloat: FloatCast)
    ensures Calculate(defaults, payload, toFloat) == Crash <==>
      !payload.Obj? || !Echo(payload.fields, "selections").Obj? ||
      !Get(Echo(payload.fields, "selections").fields, "system_id", EmptyObj).Obj? ||
      !Get(Echo(payload.fields, "selections").fields, "shingle_color", EmptyObj).Obj? ||
      !defaults.Obj? || !Echo(payload.fields, "openings").Obj? ||
      toFloat(Get(defaults.fields, "waste_qc_pct", DefaultWaste)).None?
  {
  }

  /** Each key of the response finds the value written under it. */
  lemma ResponseKeys(p: seq<(string, Value)>, sys: seq<(string, Value)>, color: seq<(string, Value)>,
                     defaults: seq<(string, Value)>, openings: seq<(string, Value)>, waste: Value)
    ensures |Response(p, sys, color, defaults, openings, waste)| == 9
    ensures forall i :: 0 <= i < 9 ==>
      Lookup(Response(p, sys, color, defaults, openings, waste), Response(p, sys, color, defaults, openings, waste)[i].0) ==
        Some(Response(p, sys, color, defaults, openings, waste)[i].1)
  {
    var r := Response(p, sys, color, defaults, openings, waste);
    forall i | 0 <= i < 9
      ensures Lookup(r, r[i].0) == Some(r[i].1)
    {
      LookupAt(r, i);
    }
  }

  /**
    The response echoes `job_address` and `zip_code` unchanged and
    `geometry`, `linears` and `openings` with falsy values as `{}`; its
    `bom_items` is empty, its `ventilation_raw` has one entry per opening,
    and its waste is `float` of the configured percentage, 3.0 by default.
   */
  lemma CalculateEchoes(defaults: Value, payload: Value, toFloat: FloatCast)
    requires Calculate(defaults, payload, toFloat).Json?
    ensures payload.Obj? && defaults.Obj?
    ensures Lookup(Calculate(defaults, payload, toFloat).body.fields, "job_address") ==
      Some(Get(payload.fields, "job_address", Null))
    ensures Lookup(Calculate(defaults, payload, toFloat).body.fields, "zip_code") ==
      Some(Get(payload.fields, "zip_code", Null))
    ensures Lookup(Calculate(defaults, payload, toFloat).body.fields, "geometry") ==
      Some(if Truthy(Get(payload.fields, "geometry", Null)) then Get(payload.fields, "geometry", Null) else EmptyObj)
    ensures Lookup(Calculate(defaults, payload, toFloat).body.fields, "linears") ==
      Some(if Truthy(Get(payload.fields, "linears", Null)) then Get(payload.fields, "linears", Null) else EmptyObj)
    ensures Lookup(Calculate(defaults, payload, toFloat).body.fields, "openings") ==
      Some(if Truthy(Get(payload.fields, "openings", Null)) then Get(payload.fields, "openings", Null) else EmptyObj)
    ensures Lookup(Calculate(defaults, payload, toFloat).body.fields, "ventilation_raw") ==
      Some(List(VentilationRaw(Echo(payload.fields, "openings").fields)))
    ensures Lookup(Calculate(defaults, payload, toFloat).body.fields, "bom_items") == Some(List([]))
    ensures Lookup(Calculate(defaults, payload, toFloat).body.fields, "waste_pct_final") ==
      toFloat(Get(defaults.fields, "waste_qc_pct", DefaultWaste))
  {
    var sels := Echo(payload.fields, "selections").fields;
    var sys := Get(sels, "system_id", EmptyObj).fields;
    var color := Get(sels, "shingle_color", EmptyObj).fields;
    var openings := Echo(payload.fields, "openings").fields;
    var waste := toFloat(Get(defaults.fields, "waste_qc_pct", DefaultWaste)).value;
    ResponseKeys(payload.fields, sys, color, defaults.fields, openings, waste);
    var r := Response(payload.fields, sys, color, defaults.fields, openings, waste);
    assert Calculate(defaults, payload, toFloat).body.fields == r;
    assert r[0].0 == "job_address" && r[1].0 == "zip_code" && r[3].0 == "geometry" && r[4].0 == "linears";
    assert r[5].0 == "openings" && r[6].0 == "ventilation_raw" && r[7].0 == "bom_items" && r[8].0 == "waste_pct_final";
  }

  /**
    The response's selections carry the chosen system and shingle color,
    each with the source the request gave it or "default".
   */
  lemma CalculateSelections(defaults: Value, payload: Value, toFloat: FloatCast)
    requires Calculate(defaults, payload, toFloat).Json?
    ensures payload.Obj? && defaults.Obj? && Echo(payload.fields, "selections").Obj?
    ensures
      var sels := Echo(payload.fields, "selections").fields;
      var sys := Get(sels, "system_id", EmptyObj);
      var color := Get(sels, "shingle_color", EmptyObj);
      sys.Obj? && color.Obj? &&
      Resolve(Calculate(defaults, payload, toFloat).body, ["selections", "system_id"]) ==
        Some(Selection(Chosen(sys.fields, defaults.fields, "system_id", DefaultSystem), sys.fields)) &&
      Resolve(Calculate(defaults, payload, toFloat).body, ["selections", "shingle_color"]) ==
        Some(Selection(Chosen(color.fields, defaults.fields, "shingle_color", DefaultColor), color.fields))
  {
    var sels := Echo(payload.fields, "selections").fields;
    var sys := Get(sels, "system_id", EmptyObj).fields;
    var color := Get(sels, "shingle_color", EmptyObj).fields;
    var openings := Echo(payload.fields, "openings").fields;
    var waste := toFloat(Get(defaults.fields, "waste_qc_pct", DefaultWaste)).value;
    var r := Response(payload.fields, sys, color, defaults.fields, openings, waste);
    assert Calculate(defaults, payload, toFloat).body.fields == r;
    LookupAt(r, 2);
    var s := r[2].1.fields;
    LookupAt(s, 0);
    LookupAt(s, 1);
    assert ["selections", "system_id"][1..] == ["system_id"];
    assert ["selections", "shingle_color"][1..] == ["shingle_color"];
  }
}
