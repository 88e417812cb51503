/**
  The find-distributors service: it looks up the centroid of the requested ZIP
  code, gathers the distributor records of the sheets the distributor type
  selects, keeps every record whose coordinates parse, annotates it with its
  distance, and answers the three nearest, nearest first.

  Sheets are passed in as the records `get_all_records` returns; `float()` and
  the haversine distance rounded to two decimals are oracles.
 */
module FindDistributors {
  import opened Wrappers
  import opened Json

  /** A sheet row as `get_all_records` returns it: header to cell value. */
  type Record = seq<(string, Value)>

  /** A (latitude, longitude) pair. */
  datatype Point = Point(lat: real, lon: real)

  /** Python's `float(v)`: the number, or None when it raises. */
  type ParseFloat = Value -> Option<real>

  /** `round(_haversine_miles(a, b), 2)`. */
  type Miles = (Point, Point) -> real

  /** One entry of `results`: `{"name", "address", "distance_miles"}`. */
  datatype Entry = Entry(name: Value, address: string, miles: real)

  /** The body of the request; `distributorType` is None when the field is null. */
  datatype FindRequest = FindRequest(zipCode: string, distributorType: Option<string>)

  /** A 404 with its detail, or the JSON answer. */
  datatype Response =
    | NotFound(detail: string)
    | Found(zipCode: string, distributorType: string, results: seq<Entry>)

  // ---------------------------------------------------------------------------
  // Sheet selection
  // ---------------------------------------------------------------------------

  const CommercialSheet: string := "GAF Distributors - Commercial"
  const HdSheet: string := "GAF Distributors - HD"
  const LowesSheet: string := "GAF Distributors - Lowes"

  /** `x or "all"` for an optional string. */
  function OrAll(t: Option<string>): (s: string)
    ensures s != []
    ensures t.Some? && t.value != [] ==> s == t.value
  {
    if t.Some? && t.value != [] then t.value else "all"
  }

  function LowerChar(c: char): char {
    if 'A' <= c <= 'Z' then (c as int + 32) as char else c
  }

  /** `str.lower()` on the characters whose lower case is an ASCII letter. */
  function Lower(s: string): (r: string)
    ensures |r| == |s|
    ensures forall i :: 0 <= i < |s| ==> r[i] == LowerChar(s[i])
  {
    if s == [] then [] else [LowerChar(s[0])] + Lower(s[1..])
  }

  /** `s` spells the lower-case word `w`, each letter in either case. */
  predicate SpellsIgnoringCase(s: string, w: string) {
    |s| == |w| && forall i :: 0 <= i < |s| ==> s[i] == w[i] || s[i] as int == w[i] as int - 32
  }

  /** `_sheet_names_for_type(dist_type)`. */
  function SheetNames(distType: Option<string>): seq<string> {
    var dt := Lower(OrAll(distType));
    if dt == "commercial" then [CommercialSheet]
    else if dt == "retail" then [HdSheet, LowesSheet]
    else [CommercialSheet, HdSheet, LowesSheet]
  }

  /** Lower-casing gives the lower-case word `w` exactly when the string spells `w` in any case. */
  lemma LowerIsWord(s: string, w: string)
    requires forall i :: 0 <= i < |w| ==> 'a' <= w[i] <= 'z'
    ensures Lower(s) == w <==> SpellsIgnoringCase(s, w)
  {
    if Lower(s) == w {
      forall i | 0 <= i < |s|
        ensures s[i] == w[i] || s[i] as int == w[i] as int - 32
      {
        assert LowerChar(s[i]) == w[i];
      }
    }
    if SpellsIgnoringCase(s, w) {
      forall i | 0 <= i < |s|
        ensures Lower(s)[i] == w[i]
      {
        assert LowerChar(s[i]) == w[i];
      }
    }
  }

  /**
    "commercial" in any case selects the Commercial sheet only, "retail" in any
    case HD then Lowes, and anything else (None and "" included) all three.
   */
  lemma SheetNamesCases(distType: Option<string>)
    ensures SheetNames(distType) == [CommercialSheet] <==> SpellsIgnoringCase(OrAll(distType), "commercial")
    ensures SheetNames(distType) == [HdSheet, LowesSheet] <==> SpellsIgnoringCase(OrAll(distType), "retail")
    ensures !SpellsIgnoringCase(OrAll(distType), "commercial") && !SpellsIgnoringCase(OrAll(distType), "retail") ==>
      SheetNames(distType) == [CommercialSheet, HdSheet, LowesSheet]
  {
    LowerIsWord(OrAll(distType), "commercial");
    LowerIsWord(OrAll(distType), "retail");
  }

  // ---------------------------------------------------------------------------
  // ZIP lookup
  // ---------------------------------------------------------------------------

  /** `str(row.get("ZIP Code"))`. */
  function ZipOf(row: Record): string {
    PyStr(Get(row, "ZIP Code", Null))
  }

  /** `(float(row["Latitude"]), float(row["Longitude"]))`, or None when a key is missing or a value does not parse. */
  function RowPoint(row: Record, parse: ParseFloat): Option<Point> {
    match Lookup(row, "Latitude")
    case None => None
    case Some(a) =>
      match parse(a)
      case None => None
      case Some(lat) =>
        match Lookup(row, "Longitude")
        case None => None
        case Some(b) =>
          match parse(b)
          case None => None
          case Some(lon) => Some(Point(lat, lon))
  }

  /** The index of the first row whose ZIP string is `zip`. */
  function FirstZipRow(rows: seq<Record>, zip: string): (r: Option<nat>)
    ensures r.Some? ==> r.value < |rows| && ZipOf(rows[r.value]) == zip
    ensures r.Some? ==> forall j :: 0 <= j < r.value ==> ZipOf(rows[j]) != zip
    ensures r.None? ==> forall j :: 0 <= j < |rows| ==> ZipOf(rows[j]) != zip
  {
    if rows == [] then None
    else if ZipOf(rows[0]) == zip then Some(0)
    else
      match FirstZipRow(rows[1..], zip)
      case None => None
      case Some(k) => Some(k + 1)
  }

  /** The centroid the lookup finds: the coordinates of the first matching row only. */
  function ZipTarget(rows: seq<Record>, zip: string, parse: ParseFloat): Option<Point> {
    match FirstZipRow(rows, zip)
    case None => None
    case Some(i) => RowPoint(rows[i], parse)
  }

  /**
    The lookup stops at the first row whose ZIP matches: when its coordinates
    do not parse there is no target, whatever the later rows hold.
   */
  lemma ZipTargetIsFirstRow(rows: seq<Record>, zip: string, parse: ParseFloat, i: nat)
    requires i < |rows| && ZipOf(rows[i]) == zip
    requires forall j :: 0 <= j < i ==> ZipOf(rows[j]) != zip
    ensures ZipTarget(rows, zip, parse) == RowPoint(rows[i], parse)
    ensures forall later: seq<Record> :: ZipTarget(rows + later, zip, parse) == RowPoint(rows[i], parse)
  {
    forall later: seq<Record>
      ensures ZipTarget(rows + later, zip, parse) == RowPoint(rows[i], parse)
    {
      var all := rows + later;
      assert forall j :: 0 <= j <= i ==> all[j] == rows[j];
      assert FirstZipRow(all, zip) == Some(i);
    }
  }

  // ---------------------------------------------------------------------------
  // Gathering and annotating the records
  // ---------------------------------------------------------------------------

  /** The records of the named sheets, sheet after sheet. */
  function Gathered(names: seq<string>, sheets: string -> seq<Record>): seq<Record>
    decreases |names|
  {
    if names == [] then [] else Gathered(names[..|names| - 1], sheets) + sheets(names[|names| - 1])
  }

  /** Gathering two lists of sheets one after the other gathers their records in that order. */
  lemma {:induction false} GatheredAppend(a: seq<string>, b: seq<string>, sheets: string -> seq<Record>)
    ensures Gathered(a + b, sheets) == Gathered(a, sheets) + Gathered(b, sheets)
    decreases |b|
  {
    if b == [] {
      assert a + b == a;
    } else {
      var c := b[..|b| - 1];
      assert (a + b)[..|a + b| - 1] == a + c;
      assert (a + b)[|a + b| - 1] == b[|b| - 1];
      GatheredAppend(a, c, sheets);
    }
  }

  /** The sheets of the "retail" type give the HD records followed by the Lowes records. */
  lemma GatheredRetail(sheets: string -> seq<Record>)
    ensures Gathered(SheetNames(Some("retail")), sheets) == sheets(HdSheet) + sheets(LowesSheet)
  {
    assert Lower("retail") == "retail";
    assert [HdSheet, LowesSheet][..1] == [HdSheet];
    assert [HdSheet][..0] == [];
  }

  /** `f"{rec.get('Street Number & Name', rec.get('Address'))}, {rec.get('City')}"`. */
  function AddressOf(rec: Record): string {
    PyStr(Get(rec, "Street Number & Name", Get(rec, "Address", Null))) + ", " + PyStr(Get(rec, "City", Null))
  }

  /** The entry one record yields, or None when its latitude or longitude does not parse. */
  function Annotate(rec: Record, target: Point, parse: ParseFloat, miles: Miles): Option<Entry> {
    match parse(Get(rec, "Latitude (N)", Null))
    case None => None
    case Some(lat) =>
      match parse(Get(rec, "Longitude (W)", Null))
      case None => None
      case Some(lon) =>
        Some(Entry(Get(rec, "Distributor Name", Null), AddressOf(rec), miles(target, Point(lat, lon))))
  }

  function AsSeq(o: Option<Entry>): seq<Entry> {
    if o.Some? then [o.value] else []
  }

  /** The entries of the records that parse, in record order. */
  function Annotated(recs: seq<Record>, target: Point, parse: ParseFloat, miles: Miles): seq<Entry>
    decreases |recs|
  {
    if recs == [] then []
    else Annotated(recs[..|recs| - 1], target, parse, miles) + AsSeq(Annotate(recs[|recs| - 1], target, parse, miles))
  }

  /** Annotating splits over concatenation: entries keep the order of their records. */
  lemma {:induction false} AnnotatedAppend(a: seq<Record>, b: seq<Record>, target: Point, parse: ParseFloat, miles: Miles)
    ensures Annotated(a + b, target, parse, miles) == Annotated(a, target, parse, miles) + Annotated(b, target, parse, miles)
    decreases |b|
  {
    if b == [] {
      assert a + b == a;
    } else {
      var c := b[..|b| - 1];
      assert (a + b)[..|a + b| - 1] == a + c;
      assert (a + b)[|a + b| - 1] == b[|b| - 1];
      AnnotatedAppend(a, c, target, parse, miles);
    }
  }

  /** A record whose coordinates do not parse yields nothing; any other yields exactly its own entry. */
  lemma AnnotatedOne(rec: Record, target: Point, parse: ParseFloat, miles: Miles)
    ensures Annotated([rec], target, parse, miles) == AsSeq(Annotate(rec, target, parse, miles))
    ensures Annotate(rec, target, parse, miles).None? <==>
      parse(Get(rec, "Latitude (N)", Null)).None? || parse(Get(rec, "Longitude (W)", Null)).None?
  {
    assert [rec][..0] == [];
  }

  /** No record yields more than one entry. */
  lemma {:induction false} AnnotatedLength(recs: seq<Record>, target: Point, parse: ParseFloat, miles: Miles)
    ensures |Annotated(recs, target, parse, miles)| <= |recs|
    decreases |recs|
  {
    if recs != [] {
      AnnotatedLength(recs[..|recs| - 1], target, parse, miles);
    }
  }

  // ---------------------------------------------------------------------------
  // Ranking: `sorted(dist_list, key=distance_miles)[:3]`
  // ---------------------------------------------------------------------------

  predicate Sorted(s: seq<Entry>) {
    forall i, j :: 0 <= i < j < |s| ==> s[i].miles <= s[j].miles
  }

  /** Puts `x` before the first entry that is not nearer than it. */
  function Insert(x: Entry, s: seq<Entry>): (r: seq<Entry>)
    ensures |r| == |s| + 1
    ensures multiset(r) == multiset(s) + multiset{x}
    decreases |s|
  {
    if s == [] || x.miles <= s[0].miles then [x] + s
    else
      assert s == [s[0]] + s[1..];
      [s[0]] + Insert(x, s[1..])
  }

  lemma {:induction false} InsertSorted(x: Entry, s: seq<Entry>)
    requires Sorted(s)
    ensures Sorted(Insert(x, s))
    decreases |s|
  {
    if s != [] && x.miles > s[0].miles {
      InsertSorted(x, s[1..]);
      var r := Insert(x, s);
      var t := Insert(x, s[1..]);
      assert r == [s[0]] + t;
      forall k | 0 <= k < |t|
        ensures s[0].miles <= t[k].miles
      {
        assert t[k] in multiset(t);
        assert t[k] in multiset(s[1..]) + multiset{x};
        if t[k] != x {
          assert t[k] in s[1..];
        }
      }
    }
  }

  /** Python's `sorted` by `distance_miles`: a stable sort, here by insertion. */
  function SortByMiles(xs: seq<Entry>): (s: seq<Entry>)
    ensures |s| == |xs| && multiset(s) == multiset(xs)
    decreases |xs|
  {
    if xs == [] then []
    else
      assert xs == [xs[0]] + xs[1..];
      Insert(xs[0], SortByMiles(xs[1..]))
  }

  lemma {:induction false} SortByMilesSorted(xs: seq<Entry>)
    ensures Sorted(SortByMiles(xs))
    decreases |xs|
  {
    if xs != [] {
      SortByMilesSorted(xs[1..]);
      InsertSorted(xs[0], SortByMiles(xs[1..]));
    }
  }

  /** The entries of `s` at distance `k`, in order. */
  function AtMiles(s: seq<Entry>, k: real): seq<Entry>
    decreases |s|
  {
    if s == [] then [] else (if s[0].miles == k then [s[0]] else []) + AtMiles(s[1..], k)
  }

  lemma {:induction false} InsertAtMiles(x: Entry, s: seq<Entry>, k: real)
    ensures AtMiles(Insert(x, s), k) == (if x.miles == k then [x] else []) + AtMiles(s, k)
    decreases |s|
  {
    if s != [] && x.miles > s[0].miles {
      InsertAtMiles(x, s[1..], k);
      var t := Insert(x, s[1..]);
      var r := [s[0]] + t;
      assert r[0] == s[0] && r[1..] == t;
      assert AtMiles(r, k) == (if s[0].miles == k then [s[0]] else []) + AtMiles(t, k);
      if x.miles == k {
        assert s[0].miles != k;
        assert AtMiles(s, k) == AtMiles(s[1..], k);
      } else {
        assert AtMiles(s, k) == (if s[0].miles == k then [s[0]] else []) + AtMiles(s[1..], k);
      }
    } else {
      var r := [x] + s;
      assert r[0] == x && r[1..] == s;
    }
  }

  /** Stability: the entries at any one distance come out in the order they went in. */
  lemma {:induction false} SortByMilesStable(xs: seq<Entry>, k: real)
    ensures AtMiles(SortByMiles(xs), k) == AtMiles(xs, k)
    decreases |xs|
  {
    if xs != [] {
      SortByMilesStable(xs[1..], k);
      InsertAtMiles(xs[0], SortByMiles(xs[1..]), k);
    }
  }

  function Min(a: nat, b: nat): nat {
    if a <= b then a else b
  }

  /** `sorted(dist_list, key=...)[:3]`. */
  function TopThree(xs: seq<Entry>): (top: seq<Entry>)
    ensures |top| == Min(3, |xs|)
  {
    SortByMiles(xs)[..Min(3, |xs|)]
  }

  /**
    The answer is sorted, it and the entries it leaves out are together exactly
    the input, no left-out entry is nearer than a returned one, and entries at
    the same distance keep their input order.
   */
  lemma TopThreeRanks(xs: seq<Entry>)
    ensures Sorted(TopThree(xs))
    ensures multiset(TopThree(xs)) + multiset(SortByMiles(xs)[Min(3, |xs|)..]) == multiset(xs)
    ensures forall i, j :: 0 <= i < |TopThree(xs)| && Min(3, |xs|) <= j < |xs| ==>
      TopThree(xs)[i].miles <= SortByMiles(xs)[j].miles
    ensures forall k: real :: AtMiles(SortByMiles(xs), k) == AtMiles(xs, k)
  {
    TopThreeSplit(xs);
    SortByMilesStableAll(xs);
  }

  /** The first `Min(3, n)` sorted entries are sorted, no farther than the rest, and together with the rest are the input. */
  lemma TopThreeSplit(xs: seq<Entry>)
    ensures Sorted(TopThree(xs))
    ensures multiset(TopThree(xs)) + multiset(SortByMiles(xs)[Min(3, |xs|)..]) == multiset(xs)
    ensures forall i, j :: 0 <= i < |TopThree(xs)| && Min(3, |xs|) <= j < |xs| ==>
      TopThree(xs)[i].miles <= SortByMiles(xs)[j].miles
  {
    var s := SortByMiles(xs);
    var n := Min(3, |xs|);
    SortByMilesSorted(xs);
    assert s == s[..n] + s[n..];
  }

  /** Stability at every distance. */
  lemma SortByMilesStableAll(xs: seq<Entry>)
    ensures forall k: real :: AtMiles(SortByMiles(xs), k) == AtMiles(xs, k)
  {
    forall k: real
      ensures AtMiles(SortByMiles(xs), k) == AtMiles(xs, k)
    {
      SortByMilesStable(xs, k);
    }
  }

  // ---------------------------------------------------------------------------
  // The endpoint
  // ---------------------------------------------------------------------------

  /** The ZIP loop: scan the rows, stop at the first whose ZIP matches, and take its coordinates if they parse. */
  method LookupZip(zipRows: seq<Record>, zip: string, parse: ParseFloat) returns (target: Option<Point>)
    ensures target == ZipTarget(zipRows, zip, parse)
  {
    target := None;
    var i := 0;
    while i < |zipRows|
      invariant 0 <= i <= |zipRows|
      invariant forall j :: 0 <= j < i ==> ZipOf(zipRows[j]) != zip
    {
      if ZipOf(zipRows[i]) == zip {
        assert FirstZipRow(zipRows, zip) == Some(i);
        target := RowPoint(zipRows[i], parse);
        break;
      }
      i := i + 1;
    }
  }

  /** The loop that extends `all_recs` with the records of each named sheet. */
  method GatherRecords(names: seq<string>, sheets: string -> seq<Record>) returns (allRecs: seq<Record>)
    ensures allRecs == Gathered(names, sheets)
  {
    allRecs := [];
    var n := 0;
    while n < |names|
      invariant 0 <= n <= |names|
      invariant allRecs == Gathered(names[..n], sheets)
    {
      assert names[..n + 1][..n] == names[..n];
      allRecs := allRecs + sheets(names[n]);
      n := n + 1;
    }
    assert names[..n] == names;
  }

  /** The loop that appends one entry per record whose coordinates parse and skips the others. */
  method DistanceList(allRecs: seq<Record>, target: Point, parse: ParseFloat, miles: Miles) returns (distList: seq<Entry>)
    ensures distList == Annotated(allRecs, target, parse, miles)
  {
    distList := [];
    var r := 0;
    while r < |allRecs|
      invariant 0 <= r <= |allRecs|
      invariant distList == Annotated(allRecs[..r], target, parse, miles)
    {
      assert allRecs[..r + 1][..r] == allRecs[..r];
      var e := Annotate(allRecs[r], target, parse, miles);
      if e.Some? {
        distList := distList + [e.value];
      }
      r := r + 1;
    }
    assert allRecs[..r] == allRecs;
  }

  /**
    `find_distributors(req)`: a 404 when the ZIP lookup finds no target;
    otherwise the three nearest entries among the records of the selected
    sheets. `zipRows` are the rows of the "GA Zip Codes" sheet and `sheets`
    gives the rows of each distributor sheet.
   */
  method Find(req: FindRequest, zipRows: seq<Record>, sheets: string -> seq<Record>, parse: ParseFloat, miles: Miles)
    returns (resp: Response)
    ensures ZipTarget(zipRows, req.zipCode, parse).None? ==>
      resp == NotFound("Zip code " + req.zipCode + " not found")
    ensures ZipTarget(zipRows, req.zipCode, parse).Some? ==>
      resp == Found(req.zipCode, OrAll(req.distributorType),
        TopThree(Annotated(Gathered(SheetNames(Some(OrAll(req.distributorType))), sheets),
                           ZipTarget(zipRows, req.zipCode, parse).value, parse, miles)))
  {
    var target := LookupZip(zipRows, req.zipCode, parse);
    if target.None? {
      return NotFound("Zip code " + req.zipCode + " not found");
    }
    var allRecs := GatherRecords(SheetNames(Some(OrAll(req.distributorType))), sheets);
    var distList := DistanceList(allRecs, target.value, parse, miles);
    resp := Found(req.zipCode, OrAll(req.distributorType), TopThree(distList));
  }
}
