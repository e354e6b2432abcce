/** Dynamic values of the transistor database: the dictionaries that configure
    the records, the transport dictionaries read back from JSON or MongoDB, and
    the errors the Python code raises while it checks and converts them. */
module Values {

  /** A Python value as it occurs in a configuration or transport dictionary.
      `VArr` is a numpy array (a matrix of rows); every other case is plain JSON. */
  datatype Value =
    | VNone
    | VBool(b: bool)
    | VNum(n: real)
    | VStr(s: string)
    | VList(items: seq<Value>)
    | VDict(d: map<string, Value>)
    | VArr(rows: seq<seq<real>>)

  /** The record kinds `Transistor.isvalid_dict` knows (its `dict_type` argument). */
  datatype DictKind =
    | ChannelDataKind
    | SwitchEnergyDataKind
    | TransistorKind
    | MetadataKind
    | FosterThermalModelKind
    | SwitchKind
    | DiodeKind

  /** The five list fields of Switch and Diode; a KeyError raised for one of their
      elements is re-raised with the element's index and the name of the list. */
  datatype ListField = SwitchChannel | SwitchEOn | SwitchEOff | DiodeChannel | DiodeERr

  datatype ListIndex = ListIndex(field: ListField, index: nat)

  datatype KeyReason =
    | MissingChannelKeys      // ChannelData lacks 't_j' or 'v_i_data'
    | MissingEnergyKeys       // SwitchEnergyData lacks a key its dataset_type needs
    | MissingDatasetType      // SwitchEnergyData has no 'dataset_type'
    | MissingTransistorKeys   // Transistor key set is a proper subset of the mandatory keys
    | MissingMetadataKeys     // Metadata key set is a proper subset of the mandatory keys
    | MissingKey(key: string) // `d[key]` on a dictionary without that key
    | MissingIndexKey         // `d[0]` on a non-empty dictionary looped over by index

  datatype ValueReason =
    | BadDatasetType
    | BadTransistorType
    | BadHousingType(housingType: string)
    | AmbiguousArrayTruth   // the truth value of a numpy array with more than one entry

  datatype TypeReason =
    | NotADict(kind: DictKind)   // isvalid_dict got something that is neither None nor a dict
    | TransistorArgsEmpty        // transistor_args is None or empty
    | MetadataArgsEmpty          // metadata_args is None or empty
    | HousingTypeNotString       // re.sub applied to a housing_type that is not a string
    | NotSubscriptable           // `x[key]` on a value that is not a dictionary
    | NotIndexable               // `range(len(x))` / `x[i]` on a value that is not a list
    | FiltersNotListOrString     // print_tdb got a filter that is neither list nor string

  /** The exceptions the DatabaseManager raises itself: plain `Exception`s,
      except `NoCollection`, which is the AttributeError of reading a
      collection that was never assigned. */
  datatype ManagerReason =
    | ModeAlreadySet
    | NoOperationMode
    | OnlyLocalCollection
    | NoCollection          // AttributeError: `mongodb_collection` was never assigned

  datatype Error =
    | KeyErr(at: Option<ListIndex>, reason: KeyReason)
    | ValueErr(valueReason: ValueReason)
    | TypeErr(typeReason: TypeReason)
    | Raised(managerReason: ManagerReason)

  datatype Option<+T> = None | Some(value: T)

  /** A raised error or a returned value. */
  datatype Result<+T> = Ok(value: T) | Err(error: Error) {
    predicate IsFailure() { Err? }
    function PropagateFailure<U>(): Result<U>
      requires Err?
    {
      Err(error)
    }
    function Extract(): T
      requires Ok?
    {
      value
    }
  }

  /** Python's `d.get(key)`: the value at `key`, or None when it is absent. */
  function Get(d: map<string, Value>, key: string): (v: Value)
    ensures key !in d ==> v == VNone
    ensures key in d ==> v == d[key]
  {
    if key in d then d[key] else VNone
  }

  /** Python's `x[key]` on a value read from a transport dictionary. */
  function Subscript(x: Value, key: string): (r: Result<Value>)
    ensures r.Ok? <==> x.VDict? && key in x.d
    ensures r.Ok? ==> r.value == x.d[key]
    ensures x.VDict? && key !in x.d ==> r == Err(KeyErr(None, MissingKey(key)))
    ensures !x.VDict? ==> r == Err(TypeErr(NotSubscriptable))
  {
    match x
    case VDict(d) => if key in d then Ok(d[key]) else Err(KeyErr(None, MissingKey(key)))
    case _ => Err(TypeErr(NotSubscriptable))
  }

  /** The elements that `for i in range(len(x)): x[i] ...` visits. A list yields
      its elements; an empty dictionary or string has length 0, so the loop
      body never runs; a non-empty dictionary fails at `x[0]`; anything else has
      no length or cannot be indexed. */
  function Indexable(x: Value): (r: Result<seq<Value>>)
    ensures x.VList? ==> r == Ok(x.items)
    ensures x == VDict(map[]) || x == VStr("") ==> r == Ok([])
    ensures x.VDict? && x.d != map[] ==> r == Err(KeyErr(None, MissingIndexKey))
    ensures !x.VList? && !x.VDict? && x != VStr("") ==> r == Err(TypeErr(NotIndexable))
  {
    match x
    case VList(items) => Ok(items)
    case VDict(d) => if d == map[] then Ok([]) else Err(KeyErr(None, MissingIndexKey))
    case VStr(s) => if s == "" then Ok([]) else Err(TypeErr(NotIndexable))
    case _ => Err(TypeErr(NotIndexable))
  }

  /** Python's `xs.index(x)`: the position of the first element equal to `x`. */
  function IndexOf<T(==)>(xs: seq<T>, x: T): (i: nat)
    requires x in xs
    ensures i < |xs| && xs[i] == x
    ensures forall j :: 0 <= j < i ==> xs[j] != x
  {
    if xs[0] == x then 0 else 1 + IndexOf(xs[1..], x)
  }

  /** The first occurrence of an element that no earlier element equals is its own position. */
  lemma IndexOfUnrepeated<T>(xs: seq<T>, k: nat)
    requires k < |xs|
    requires forall j :: 0 <= j < k ==> xs[j] != xs[k]
    ensures IndexOf(xs, xs[k]) == k
  {
  }

  /** A list of numbers, the shape of one row of a numpy matrix. */
  predicate IsNumberRow(v: Value) {
    v.VList? && forall j :: 0 <= j < |v.items| ==> v.items[j].VNum?
  }

  function NumberRow(v: Value): (row: seq<real>)
    requires IsNumberRow(v)
    ensures |row| == |v.items|
    ensures forall j :: 0 <= j < |row| ==> v.items[j] == VNum(row[j])
  {
    seq(|v.items|, j requires 0 <= j < |v.items| => v.items[j].n)
  }

  /** A list of number rows all as long as the first: the transport form of a
      matrix. */
  predicate IsMatrix(x: Value) {
    x.VList? && forall i :: 0 <= i < |x.items| ==>
      IsNumberRow(x.items[i]) && IsNumberRow(x.items[0]) && |x.items[i].items| == |x.items[0].items|
  }

  /** `np.array(x)`: a list of number rows of one length becomes the matrix of
      those rows; an array stays as it is. Other shapes (scalars, ragged or
      one-dimensional lists) are left as they are. */
  function ToArray(x: Value): (r: Value)
    ensures IsMatrix(x) ==> r.VArr? && |r.rows| == |x.items|
    ensures IsMatrix(x) ==> forall i :: 0 <= i < |x.items| ==> r.rows[i] == NumberRow(x.items[i])
    ensures IsMatrix(x) ==> forall i :: 0 <= i < |r.rows| ==> |r.rows[i]| == |r.rows[0]|
    ensures !IsMatrix(x) ==> r == x
  {
    if IsMatrix(x) then
      VArr(seq(|x.items|, i requires 0 <= i < |x.items| => NumberRow(x.items[i])))
    else
      x
  }

  /** Converting twice is converting once: `np.array(np.array(x))` equals `np.array(x)`. */
  lemma ToArrayIdempotent(x: Value)
    ensures ToArray(ToArray(x)) == ToArray(x)
  {
  }

  /** A matrix in transport form (rows of numbers of one length) becomes
      exactly that matrix. */
  lemma ToArrayOfRows(rows: seq<seq<real>>)
    requires forall i :: 0 <= i < |rows| ==> |rows[i]| == |rows[0]|
    ensures ToArray(VList(seq(|rows|, i requires 0 <= i < |rows| =>
                VList(seq(|rows[i]|, j requires 0 <= j < |rows[i]| => VNum(rows[i][j])))))) == VArr(rows)
  {
    var x := VList(seq(|rows|, i requires 0 <= i < |rows| =>
               VList(seq(|rows[i]|, j requires 0 <= j < |rows[i]| => VNum(rows[i][j])))));
    assert forall i :: 0 <= i < |x.items| ==> IsNumberRow(x.items[i]) && |x.items[i].items| == |x.items[0].items|;
    var r := ToArray(x);
    assert r.rows == rows by {
      forall i | 0 <= i < |rows| ensures r.rows[i] == rows[i] {
        assert NumberRow(x.items[i]) == rows[i];
      }
    }
  }

  /** Rows of different lengths are not a matrix: the list is left as it is. */
  lemma RaggedRowsUnchanged()
    ensures var x := VList([VList([VNum(1.0)]), VList([VNum(1.0), VNum(2.0)])]);
      !IsMatrix(x) && ToArray(x) == x
  {
    var x := VList([VList([VNum(1.0)]), VList([VNum(1.0), VNum(2.0)])]);
    assert |x.items[1].items| != |x.items[0].items|;
  }

  /** The entries of a matrix, row after row. */
  function Entries(rows: seq<seq<real>>): (e: seq<real>)
    ensures rows == [] ==> e == []
  {
    if rows == [] then [] else rows[0] + Entries(rows[1..])
  }

  /** Python's truth test `bool(x)`: None and False are false, a number is
      true when it is not zero, a string, list or dictionary when it is not
      empty. A numpy array with one entry has the truth of that entry, an
      empty one is false, and one with more entries raises ValueError. */
  function Truth(x: Value): (r: Result<bool>)
    ensures r.Err? <==> x.VArr? && |Entries(x.rows)| > 1
    ensures r.Err? ==> r.error == ValueErr(AmbiguousArrayTruth)
    ensures x.VList? || x.VDict? || x.VStr? ==> r == Ok(x != VList([]) && x != VDict(map[]) && x != VStr(""))
  {
    match x
    case VNone => Ok(false)
    case VBool(b) => Ok(b)
    case VNum(n) => Ok(n != 0.0)
    case VStr(s) => Ok(s != "")
    case VList(items) => Ok(items != [])
    case VDict(d) => Ok(d != map[])
    case VArr(rows) =>
      var e := Entries(rows);
      if |e| == 0 then Ok(false)
      else if |e| == 1 then Ok(e[0] != 0.0)
      else Err(ValueErr(AmbiguousArrayTruth))
  }

  /** A single-entry array is false exactly when its entry is zero, whatever
      the shape that holds it. */
  lemma SingleEntryTruth(x: real, before: nat, after: nat)
    ensures Truth(VArr(seq(before, _ => []) + [[x]] + seq(after, _ => []))) == Ok(x != 0.0)
  {
    var rows := seq(before, _ => []) + [[x]] + seq(after, _ => []);
    EntriesOfEmptyRows(seq(after, _ => []));
    EntriesAround(seq(before, _ => []), [[x]] + seq(after, _ => []));
    EntriesOfEmptyRows(seq(before, _ => []));
    assert rows == seq(before, _ => []) + ([[x]] + seq(after, _ => []));
    assert Entries([[x]] + seq(after, _ => [])) == [x] + Entries(seq(after, _ => [])) by {
      assert ([[x]] + seq(after, _ => []))[1..] == seq(after, _ => []);
    }
  }

  lemma {:induction false} EntriesOfEmptyRows(rows: seq<seq<real>>)
    requires forall i :: 0 <= i < |rows| ==> rows[i] == []
    ensures Entries(rows) == []
    decreases |rows|
  {
    if rows != [] {
      EntriesOfEmptyRows(rows[1..]);
    }
  }

  lemma {:induction false} EntriesAround(a: seq<seq<real>>, b: seq<seq<real>>)
    ensures Entries(a + b) == Entries(a) + Entries(b)
    decreases |a|
  {
    if a == [] {
      assert a + b == b;
    } else {
      assert (a + b)[0] == a[0];
      assert (a + b)[1..] == a[1..] + b;
      EntriesAround(a[1..], b);
    }
  }

  /** `a == b` inside a dictionary comparison, for values that are distinct
      objects. When an array with more than one entry takes part, numpy
      compares entry by entry (or fails to broadcast), and the truth test of
      the result raises ValueError; otherwise the values are compared as
      values. */
  function ItemEq(a: Value, b: Value): (r: Result<bool>)
    ensures r.Err? <==> (a.VArr? && |Entries(a.rows)| > 1) || (b.VArr? && |Entries(b.rows)| > 1)
    ensures r.Ok? ==> r.value == (a == b)
    ensures r.Err? ==> r.error == ValueErr(AmbiguousArrayTruth)
  {
    if (a.VArr? && |Entries(a.rows)| > 1) || (b.VArr? && |Entries(b.rows)| > 1) then
      Err(ValueErr(AmbiguousArrayTruth))
    else
      Ok(a == b)
  }

  /** `dict.__eq__` from the key `keys[0]` on: the first key missing from
      `b`, or whose values differ, makes the answer false; an error in a value
      comparison escapes. */
  function EntriesEq(a: map<string, Value>, b: map<string, Value>, keys: seq<string>): (r: Result<bool>)
    ensures r == Ok(true) ==> forall i :: 0 <= i < |keys| ==> keys[i] in a && keys[i] in b && a[keys[i]] == b[keys[i]]
    ensures r.Err? ==> r.error == ValueErr(AmbiguousArrayTruth)
    decreases |keys|
  {
    if keys == [] then Ok(true)
    else if keys[0] !in a || keys[0] !in b then Ok(false)
    else
      var same :- ItemEq(a[keys[0]], b[keys[0]]);
      if same then EntriesEq(a, b, keys[1..]) else Ok(false)
  }

  /** Python's `a == b` as `list.index` evaluates it, for two distinct
      objects. Dictionaries of different sizes are unequal; otherwise the keys
      of `a` are visited in their insertion order `order(a.d)`, which map
      values do not keep and which is therefore a parameter. */
  function PyEq(a: Value, b: Value, order: map<string, Value> -> seq<string>): (r: Result<bool>)
    ensures a.VDict? && b.VDict? && |a.d| != |b.d| ==> r == Ok(false)
    ensures !(a.VDict? && b.VDict?) ==> r == ItemEq(a, b)
    ensures r.Err? ==> r.error == ValueErr(AmbiguousArrayTruth)
  {
    if a.VDict? && b.VDict? then
      if |a.d| != |b.d| then Ok(false) else EntriesEq(a.d, b.d, order(a.d))
    else
      ItemEq(a, b)
  }

  /** `xs.index(xs[k])` as Python evaluates it: each earlier element is
      compared with element k by PyEq, the first equal one is the answer and
      an error in a comparison escapes; element k itself is the same object,
      which `index` matches without comparing. */
  function PyIndexOf(xs: seq<Value>, k: nat, order: map<string, Value> -> seq<string>): (r: Result<nat>)
    requires k < |xs|
    ensures r.Ok? ==> r.value <= k
    ensures r.Err? ==> r.error == ValueErr(AmbiguousArrayTruth)
  {
    PyIndexFrom(xs, k, 0, order)
  }

  function PyIndexFrom(xs: seq<Value>, k: nat, j: nat, order: map<string, Value> -> seq<string>): (r: Result<nat>)
    requires j <= k < |xs|
    ensures r.Ok? ==> j <= r.value <= k
    ensures r.Err? ==> r.error == ValueErr(AmbiguousArrayTruth)
    decreases k - j
  {
    if j == k then Ok(k)
    else
      var same :- PyEq(xs[j], xs[k], order);
      if same then Ok(j) else PyIndexFrom(xs, k, j + 1, order)
  }

  /** When no comparison with an earlier element raises or succeeds, Python's
      `index` gives the element's own position, as IndexOf does. */
  lemma {:induction false} PyIndexOfUnrepeated(xs: seq<Value>, k: nat, j: nat, order: map<string, Value> -> seq<string>)
    requires j <= k < |xs|
    requires forall i :: j <= i < k ==> PyEq(xs[i], xs[k], order) == Ok(false)
    ensures PyIndexFrom(xs, k, j, order) == Ok(k)
    decreases k - j
  {
    if j < k {
      PyIndexOfUnrepeated(xs, k, j + 1, order);
    }
  }

  /** Under an order that lists every key of the left-hand dictionary, a
      comparison that answers True compares equal values. */
  lemma PyEqTrueMeansEqual(a: Value, b: Value, order: map<string, Value> -> seq<string>)
    requires a.VDict? ==> forall key :: key in a.d ==> key in order(a.d)
    requires PyEq(a, b, order) == Ok(true)
    ensures a == b
  {
    if a.VDict? && b.VDict? {
      var keys := order(a.d);
      assert a.d.Keys <= b.d.Keys && forall key :: key in a.d ==> a.d[key] == b.d[key] by {
        forall key | key in a.d ensures key in b.d && a.d[key] == b.d[key] {
          var i :| 0 <= i < |keys| && keys[i] == key;
        }
      }
      assert |b.d.Keys - a.d.Keys| == 0 by {
        assert |b.d.Keys| == |a.d.Keys| + |b.d.Keys - a.d.Keys| by {
          assert b.d.Keys == a.d.Keys + (b.d.Keys - a.d.Keys);
        }
      }
      assert a.d.Keys == b.d.Keys;
      assert a.d == b.d;
    }
  }
}
