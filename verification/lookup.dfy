/** Linear scans over the JSON data files that map client accounts to
    advisor codes (`account_advisors_data.json`) and advisor codes to
    advisors (`advisors_data.json`). */
module Lookup {
  import opened PyJson

  /** Reading a data file: absent, not valid JSON, or a top-level list of
      entries. */
  datatype DataFile = Missing | Undecodable | Decoded(entries: seq<Json>)

  /** `load_json` of `SearchAdvisorEmail` and `MapAdvisorInfo`: a missing
      or undecodable file reads as an empty list. */
  function LoadJson(f: DataFile): (t: seq<Json>)
    ensures f.Decoded? <==> t != [] || f == Decoded([])
  {
    if f.Decoded? then f.entries else []
  }

  /** The entries a scan passes over without stopping: `test` answers
      `False` on each of them. */
  predicate PassedOver(table: seq<Json>, test: Json -> Eval<bool>, n: nat)
    requires n <= |table|
  {
    forall j :: 0 <= j < n ==> test(table[j]) == Ok(false)
  }

  /** `for entry in table: if test(entry): return ...`: the index of the
      first entry `test` accepts, `None` when it rejects every entry, and
      the exception of the first entry on which `test` raises before
      that. */
  function FirstMatch(table: seq<Json>, test: Json -> Eval<bool>): (r: Eval<Option<nat>>)
    ensures r.Ok? && r.value.Some? ==>
      r.value.value < |table| && test(table[r.value.value]) == Ok(true) && PassedOver(table, test, r.value.value)
    ensures r == Ok(None) <==> PassedOver(table, test, |table|)
    ensures r.Raised? <==>
      exists j :: 0 <= j < |table| && test(table[j]).Raised? && PassedOver(table, test, j)
    decreases |table|
  {
    if |table| == 0 then Ok(None)
    else
      match test(table[0])
      case Raised => Raised
      case Ok(hit) =>
        if hit then Ok(Some(0))
        else
          var rest := FirstMatch(table[1..], test);
          assert forall j :: 1 <= j < |table| ==> table[j] == table[1..][j - 1];
          match rest
          case Raised =>
            var j :| 0 <= j < |table| - 1 && test(table[1..][j]).Raised? && PassedOver(table[1..], test, j);
            assert test(table[j + 1]).Raised? && PassedOver(table, test, j + 1);
            Raised
          case Ok(None) => Ok(None)
          case Ok(Some(i)) => Ok(Some(i + 1))
  }

  /** A scan stops at the first entry it accepts: two scans that both
      accept entry `i` and pass over everything before it agree. */
  lemma {:induction false} FirstMatchIsFirst(table: seq<Json>, test: Json -> Eval<bool>, i: nat)
    requires i < |table| && test(table[i]) == Ok(true) && PassedOver(table, test, i)
    ensures FirstMatch(table, test) == Ok(Some(i))
    decreases i
  {
    if i > 0 {
      assert test(table[0]) == Ok(false);
      assert forall j :: 0 <= j < i - 1 ==> table[1..][j] == table[j + 1];
      FirstMatchIsFirst(table[1..], test, i - 1);
    }
  }

  /** `entry.get(field) == value`; `.get` raises on an entry that is not
      a dict. */
  function GetEquals(field: string, value: Json, entry: Json): Eval<bool> {
    if entry.Obj? then Ok(PyEq(GetOr(entry.fields, field, Null), value)) else Raised
  }

  /** `entry[field] == value`; indexing raises on an entry that is not a
      dict or lacks `field`. */
  function IndexEquals(field: string, value: Json, entry: Json): Eval<bool> {
    match Index(entry, field)
    case Raised => Raised
    case Ok(v) => Ok(PyEq(v, value))
  }
}
