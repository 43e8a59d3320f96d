/**
 * The car records of the scatterplot, the load step that cleans them and the
 * [min, max] extents that fix the two position scales.
 */
module Cars {
  import opened Wrappers
  import opened Seqs

  /** A numeric field as parsed from the JSON file: missing or null, or a number. */
  datatype RawValue = Absent | Number(value: real)

  /** One object of the parsed JSON array, before cleaning. */
  datatype RawRecord = RawRecord(name: string, origin: string, horsepower: RawValue, milesPerGallon: RawValue)

  /** One retained car, with both numeric fields coerced to numbers. */
  datatype Record = Record(name: string, origin: string, horsepower: real, milesPerGallon: real)

  /** JavaScript truthiness of a numeric field: present and not zero. */
  predicate Truthy(v: RawValue)
  {
    v.Number? && v.value != 0.0
  }

  /** The load filter's test: both horsepower and miles per gallon are truthy. */
  predicate Usable(d: RawRecord)
  {
    Truthy(d.horsepower) && Truthy(d.milesPerGallon)
  }

  /** The in-place `+field` coercion of a retained object. */
  function Coerce(d: RawRecord): (r: Record)
    requires Usable(d)
    ensures r.horsepower != 0.0 && r.milesPerGallon != 0.0
    ensures RawRecord(r.name, r.origin, Number(r.horsepower), Number(r.milesPerGallon)) == d
  {
    Record(d.name, d.origin, d.horsepower.value, d.milesPerGallon.value)
  }

  /** The records kept by the load filter, in input order. */
  function KeepValid(raw: seq<RawRecord>): (kept: seq<RawRecord>)
    ensures forall i :: 0 <= i < |kept| ==> Usable(kept[i])
  {
    Filter(raw, Usable)
  }

  /** Coercion of every kept record, position by position. */
  function CoerceAll(kept: seq<RawRecord>): (data: seq<Record>)
    requires forall i :: 0 <= i < |kept| ==> Usable(kept[i])
    ensures |data| == |kept|
    ensures forall i :: 0 <= i < |kept| ==> data[i] == Coerce(kept[i])
  {
    seq(|kept|, i requires 0 <= i < |kept| => Coerce(kept[i]))
  }

  /** The data set the load callback stores: filter, then coerce. */
  function Loaded(raw: seq<RawRecord>): (data: seq<Record>)
    ensures |data| <= |raw|
    ensures AllNonzero(data)
  {
    CoerceAll(KeepValid(raw))
  }

  /** Every loaded record has non-zero horsepower and miles per gallon. */
  predicate AllNonzero(data: seq<Record>)
  {
    forall i :: 0 <= i < |data| ==> data[i].horsepower != 0.0 && data[i].milesPerGallon != 0.0
  }

  lemma LoadedNonzero(raw: seq<RawRecord>)
    ensures AllNonzero(Loaded(raw))
  {
  }

  /** A single object is kept, coerced, exactly when both its fields are truthy. */
  lemma LoadedSingle(d: RawRecord)
    ensures Loaded([d]) == if Usable(d) then [Coerce(d)] else []
  {
  }

  /** Loading distributes over concatenation: kept records keep their relative order. */
  lemma LoadedAppend(a: seq<RawRecord>, b: seq<RawRecord>)
    ensures Loaded(a + b) == Loaded(a) + Loaded(b)
  {
    FilterAppend(a, b, Usable);
  }

  /** A record is loaded exactly when some usable input object coerces to it. */
  lemma LoadedMembers(raw: seq<RawRecord>, r: Record)
    ensures r in Loaded(raw) <==> exists i :: 0 <= i < |raw| && Usable(raw[i]) && Coerce(raw[i]) == r
  {
  }

  /** A scale domain: the [min, max] pair handed to a linear scale. */
  datatype Domain = Domain(lo: real, hi: real)

  function Horsepower(d: Record): real { d.horsepower }

  function MilesPerGallon(d: Record): real { d.milesPerGallon }

  /**
   * The [min, max] of `key` over `data`, as the charting library's extent computes it;
   * None on an empty array, where the library yields an undefined pair.
   */
  function Extent<T>(data: seq<T>, key: T -> real): (e: Option<Domain>)
    ensures e.None? <==> data == []
    ensures e.Some? ==> e.value.lo <= e.value.hi
    ensures e.Some? ==> forall i :: 0 <= i < |data| ==> e.value.lo <= key(data[i]) <= e.value.hi
  {
    if data == [] then None
    else
      var k := key(data[0]);
      match Extent(data[1..], key)
      case None => Some(Domain(k, k))
      case Some(Domain(lo, hi)) =>
        assert forall i :: 1 <= i < |data| ==> data[i] == data[1..][i - 1];
        Some(Domain(if k < lo then k else lo, if hi < k then k else hi))
  }

  /** Both ends of a non-empty extent are attained by some element. */
  lemma {:induction false} ExtentAttained<T>(data: seq<T>, key: T -> real)
    requires data != []
    ensures exists i :: 0 <= i < |data| && key(data[i]) == Extent(data, key).value.lo
    ensures exists i :: 0 <= i < |data| && key(data[i]) == Extent(data, key).value.hi
  {
    var d := Extent(data, key).value;
    if |data| == 1 {
      assert key(data[0]) == d.lo && key(data[0]) == d.hi;
    } else {
      ExtentAttained(data[1..], key);
      var e := Extent(data[1..], key).value;
      var i :| 0 <= i < |data| - 1 && key(data[1..][i]) == e.lo;
      var j :| 0 <= j < |data| - 1 && key(data[1..][j]) == e.hi;
      var lo := if key(data[0]) < e.lo then 0 else i + 1;
      var hi := if e.hi < key(data[0]) then 0 else j + 1;
      assert key(data[lo]) == d.lo;
      assert key(data[hi]) == d.hi;
    }
  }

  /** Every element of a sub-collection lies inside the extent of the whole collection. */
  lemma ExtentCovers<T>(data: seq<T>, part: seq<T>, key: T -> real)
    requires forall i :: 0 <= i < |part| ==> part[i] in data
    requires data != []
    ensures forall i :: 0 <= i < |part| ==> Extent(data, key).value.lo <= key(part[i]) <= Extent(data, key).value.hi
  {
  }
}
