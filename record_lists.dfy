/** The plural fields `channel`, `e_on`, `e_off` and `e_rr` of Switch and Diode.
    Each field may hold one dictionary or a list of them; every element is
    checked with `isvalid_dict` and turned into a record when it is valid,
    None and empty elements are skipped, and a KeyError raised for element k is
    re-raised with k in its message. The handler finds k again with
    `dict_list.index(dataset)`, which can itself raise ValueError
    (AtIndexAsWritten); the model records the position the handler means. */
module RecordLists {
  import opened Values
  import opened Validation

  /** The element kinds that occur in a plural field. */
  predicate IsElementKind(kind: DictKind) {
    kind == ChannelDataKind || kind == SwitchEnergyDataKind
  }

  /** The error that escapes the loop when element `k` fails with `e`: a
      KeyError gains the element's position, any other error passes unchanged. */
  function AtIndex(e: Error, field: ListField, k: nat): (r: Error)
    ensures e.KeyErr? ==> r == KeyErr(Some(ListIndex(field, k)), e.reason)
    ensures !e.KeyErr? ==> r == e
  {
    if e.KeyErr? then KeyErr(Some(ListIndex(field, k)), e.reason) else e
  }

  /** What the loop over a list field yields, element by element from the
      first: the records built so far, or the first element's error. */
  function RecordsOf<R>(items: seq<Value>, field: ListField, kind: DictKind, make: map<string, Value> -> R)
    : (r: Result<seq<R>>)
    requires IsElementKind(kind)
    ensures r.Ok? ==> |r.value| <= |items|
    ensures r.Err? ==> exists k :: 0 <= k < |items| && IsValidDict(items[k], kind, []).Err? &&
                                  r.error == AtIndex(IsValidDict(items[k], kind, []).error, field, k)
    decreases |items|
  {
    if items == [] then Ok([])
    else
      var k := |items| - 1;
      var done :- RecordsOf(items[..k], field, kind, make);
      match IsValidDict(items[k], kind, [])
      case Err(e) => Err(AtIndex(e, field, k))
      case Ok(valid) => if valid then Ok(done + [make(items[k].d)]) else Ok(done)
  }

  /** Bare dictionary or list of dictionaries: the value of one plural field
      turned into its list of records. */
  function FieldRecords<R>(fieldValue: Value, field: ListField, kind: DictKind, make: map<string, Value> -> R)
    : (r: Result<seq<R>>)
    requires IsElementKind(kind)
    ensures fieldValue.VList? ==>
              (r.Ok? <==> forall i :: 0 <= i < |fieldValue.items| ==> IsValidDict(fieldValue.items[i], kind, []).Ok?)
    ensures !fieldValue.VList? ==> (r.Ok? <==> IsValidDict(fieldValue, kind, []).Ok?)
    ensures !fieldValue.VList? && r.Err? ==> r.error == IsValidDict(fieldValue, kind, []).error
    ensures !fieldValue.VList? && r.Ok? ==> |r.value| <= 1
  {
    if fieldValue.VList? then
      RecordsOfKeepsValid(fieldValue.items, field, kind, make);
      RecordsOf(fieldValue.items, field, kind, make)
    else
      var valid :- IsValidDict(fieldValue, kind, []);
      if valid then Ok([make(fieldValue.d)]) else Ok([])
  }

  /** Reference definition of the records of a list: the dictionaries that
      validate True, in their order. */
  function ValidDicts(items: seq<Value>, kind: DictKind): (ds: seq<map<string, Value>>)
    requires IsElementKind(kind)
    ensures |ds| <= |items|
  {
    if items == [] then []
    else
      (if IsValidDict(items[0], kind, []) == Ok(true) then [items[0].d] else []) + ValidDicts(items[1..], kind)
  }

  function MapMake<R>(ds: seq<map<string, Value>>, make: map<string, Value> -> R): (rs: seq<R>)
    ensures |rs| == |ds|
    ensures forall i :: 0 <= i < |ds| ==> rs[i] == make(ds[i])
  {
    seq(|ds|, i requires 0 <= i < |ds| => make(ds[i]))
  }

  lemma {:induction false} ValidDictsSnoc(items: seq<Value>, x: Value, kind: DictKind)
    requires IsElementKind(kind)
    ensures ValidDicts(items + [x], kind) ==
              ValidDicts(items, kind) + (if IsValidDict(x, kind, []) == Ok(true) then [x.d] else [])
  {
    if items == [] {
      assert items + [x] == [x];
    } else {
      assert (items + [x])[1..] == items[1..] + [x];
      ValidDictsSnoc(items[1..], x, kind);
    }
  }

  /** The loop completes exactly when no element raises, and then it yields the
      records of the elements that validate True, in their order: None and
      empty elements are skipped. */
  lemma {:induction false} RecordsOfKeepsValid<R>(items: seq<Value>, field: ListField, kind: DictKind, make: map<string, Value> -> R)
    requires IsElementKind(kind)
    ensures RecordsOf(items, field, kind, make).Ok? <==> forall i :: 0 <= i < |items| ==> IsValidDict(items[i], kind, []).Ok?
    ensures RecordsOf(items, field, kind, make).Ok? ==>
              RecordsOf(items, field, kind, make).value == MapMake(ValidDicts(items, kind), make)
    decreases |items|
  {
    if items != [] {
      var k := |items| - 1;
      RecordsOfKeepsValid(items[..k], field, kind, make);
      assert items == items[..k] + [items[k]];
      ValidDictsSnoc(items[..k], items[k], kind);
      if RecordsOf(items[..k], field, kind, make).Ok? && IsValidDict(items[k], kind, []).Ok? {
        assert forall i :: 0 <= i < |items| ==> IsValidDict(items[i], kind, []).Ok? by {
          forall i | 0 <= i < |items| ensures IsValidDict(items[i], kind, []).Ok? {
            if i < k { assert items[i] == items[..k][i]; }
          }
        }
      }
      if forall i :: 0 <= i < |items| ==> IsValidDict(items[i], kind, []).Ok? {
        assert forall i :: 0 <= i < k ==> IsValidDict(items[..k][i], kind, []).Ok? by {
          forall i | 0 <= i < k ensures IsValidDict(items[..k][i], kind, []).Ok? {
            assert items[..k][i] == items[i];
          }
        }
      }
    }
  }

  /** Once a prefix raises, the whole list raises the same error: the loop
      stops at the first failing element. */
  lemma {:induction false} RecordsOfErrPersists<R>(items: seq<Value>, n: nat, field: ListField, kind: DictKind, make: map<string, Value> -> R)
    requires IsElementKind(kind)
    requires n <= |items|
    requires RecordsOf(items[..n], field, kind, make).Err?
    ensures RecordsOf(items, field, kind, make) == RecordsOf(items[..n], field, kind, make)
    decreases |items| - n
  {
    if n < |items| {
      var k := |items| - 1;
      assert items[..k][..n] == items[..n];
      RecordsOfErrPersists(items[..k], n, field, kind, make);
    } else {
      assert items[..n] == items;
    }
  }

  /** The first element that fails decides the error: a KeyError from element
      k is re-raised with index k, a ValueError or TypeError unchanged. (The
      handler as written may raise ValueError instead: IndexLookupCanRaise.) */
  lemma RecordsOfFirstError<R>(items: seq<Value>, k: nat, field: ListField, kind: DictKind, make: map<string, Value> -> R)
    requires IsElementKind(kind)
    requires k < |items|
    requires forall j :: 0 <= j < k ==> IsValidDict(items[j], kind, []).Ok?
    requires IsValidDict(items[k], kind, []).Err?
    ensures RecordsOf(items, field, kind, make) == Err(AtIndex(IsValidDict(items[k], kind, []).error, field, k))
  {
    var prefix := items[..k+1];
    assert prefix[..k] == items[..k];
    RecordsOfKeepsValid(items[..k], field, kind, make);
    assert RecordsOf(prefix, field, kind, make) == Err(AtIndex(IsValidDict(items[k], kind, []).error, field, k));
    RecordsOfErrPersists(items, k + 1, field, kind, make);
  }

  /** The first position holding a value equal to the failing element, which
      is what `dict_list.index(dataset)` is meant to find, is the position of
      the failing element itself: an equal element earlier in the list would
      have failed first. */
  lemma IndexOfFirstFailure(items: seq<Value>, k: nat, kind: DictKind)
    requires IsElementKind(kind)
    requires k < |items|
    requires forall j :: 0 <= j < k ==> IsValidDict(items[j], kind, []).Ok?
    requires IsValidDict(items[k], kind, []).Err?
    ensures IndexOf(items, items[k]) == k
  {
    forall j | 0 <= j < k ensures items[j] != items[k] {
      assert IsValidDict(items[j], kind, []).Ok?;
    }
    IndexOfUnrepeated(items, k);
  }

  /** The error the source's handler raises for element k failing with `e`,
      as written: a KeyError is re-raised with the position that
      `dict_list.index(dataset)` finds, and that search compares the earlier
      elements with element k, which may itself raise. `order` gives each
      dictionary's insertion order. */
  function AtIndexAsWritten(items: seq<Value>, k: nat, e: Error, field: ListField,
                            order: map<string, Value> -> seq<string>): (r: Error)
    requires k < |items|
    ensures !e.KeyErr? ==> r == e
    ensures e.KeyErr? ==> r.KeyErr? || r == ValueErr(AmbiguousArrayTruth)
  {
    if !e.KeyErr? then e
    else
      match PyIndexOf(items, k, order)
      case Err(clash) => clash
      case Ok(i) => KeyErr(Some(ListIndex(field, i)), e.reason)
  }

  /** Where no comparison with an earlier element raises, the handler as
      written reports the failing element's own position, which is what
      AtIndex, used by the rest of the model, records. */
  lemma HandlerIndexWithoutClash(items: seq<Value>, k: nat, field: ListField, kind: DictKind,
                                 order: map<string, Value> -> seq<string>)
    requires IsElementKind(kind)
    requires k < |items|
    requires forall j :: 0 <= j < k ==> IsValidDict(items[j], kind, []).Ok?
    requires IsValidDict(items[k], kind, []).Err?
    requires forall j :: 0 <= j < k ==> PyEq(items[j], items[k], order).Ok?
    requires forall j :: 0 <= j < k && items[j].VDict? ==> forall key :: key in items[j].d ==> key in order(items[j].d)
    ensures AtIndexAsWritten(items, k, IsValidDict(items[k], kind, []).error, field, order) ==
              AtIndex(IsValidDict(items[k], kind, []).error, field, k)
  {
    forall j | 0 <= j < k ensures PyEq(items[j], items[k], order) == Ok(false) {
      var same := PyEq(items[j], items[k], order);
      assert same.Ok?;
      if same.value {
        assert items[j].VDict? ==> forall key :: key in items[j].d ==> key in order(items[j].d);
        PyEqTrueMeansEqual(items[j], items[k], order);
      }
    }
    PyIndexOfUnrepeated(items, k, 0, order);
  }

  /** The handler as written can fail. Element 0 is a valid channel record and
      element 1 lacks 't_j'. Both hold two keys and 'v_i_data' comes first in
      element 0, so `index` compares two 2x2 arrays, whose truth test raises
      ValueError: the list raises that ValueError, not the KeyError with
      index 1 that the handler is there to raise and that the model gives. */
  lemma IndexLookupCanRaise<R>(make: map<string, Value> -> R)
    ensures var items := [VDict(map["v_i_data" := VArr([[1.0, 2.0], [3.0, 4.0]]), "t_j" := VNum(25.0)]),
                          VDict(map["v_i_data" := VArr([[5.0, 6.0], [7.0, 8.0]]), "t_k" := VNum(25.0)])];
            var order := (d: map<string, Value>) => ["v_i_data", "t_j"];
            && IsValidDict(items[0], ChannelDataKind, []) == Ok(true)
            && IsValidDict(items[1], ChannelDataKind, []) == Err(KeyErr(None, MissingChannelKeys))
            && AtIndexAsWritten(items, 1, KeyErr(None, MissingChannelKeys), SwitchChannel, order) ==
                 ValueErr(AmbiguousArrayTruth)
            && RecordsOf(items, SwitchChannel, ChannelDataKind, make) ==
                 Err(KeyErr(Some(ListIndex(SwitchChannel, 1)), MissingChannelKeys))
  {
    var a := VArr([[1.0, 2.0], [3.0, 4.0]]);
    var b := VArr([[5.0, 6.0], [7.0, 8.0]]);
    var items := [VDict(map["v_i_data" := a, "t_j" := VNum(25.0)]), VDict(map["v_i_data" := b, "t_k" := VNum(25.0)])];
    var order := (d: map<string, Value>) => ["v_i_data", "t_j"];
    assert |items[0].d| == 2 && |items[1].d| == 2 by {
      assert items[0].d.Keys == {"v_i_data", "t_j"};
      assert items[1].d.Keys == {"v_i_data", "t_k"};
    }
    assert |Entries(a.rows)| == 4;
    assert ItemEq(a, b) == Err(ValueErr(AmbiguousArrayTruth));
    assert PyEq(items[0], items[1], order) == Err(ValueErr(AmbiguousArrayTruth));
    assert PyIndexOf(items, 1, order) == Err(ValueErr(AmbiguousArrayTruth));
    RecordsOfFirstError(items, 1, SwitchChannel, ChannelDataKind, make);
  }

  /** The loop stops at the first element that raises: the list raises that
      element's error, and the index the message names is the element's own. */
  lemma LoopStopsAt<R>(items: seq<Value>, i: nat, field: ListField, kind: DictKind, make: map<string, Value> -> R)
    requires IsElementKind(kind)
    requires i < |items|
    requires RecordsOf(items[..i], field, kind, make).Ok?
    requires IsValidDict(items[i], kind, []).Err?
    ensures IndexOf(items, items[i]) == i
    ensures RecordsOf(items, field, kind, make) == Err(AtIndex(IsValidDict(items[i], kind, []).error, field, i))
  {
    RecordsOfKeepsValid(items[..i], field, kind, make);
    assert forall j :: 0 <= j < i ==> IsValidDict(items[j], kind, []).Ok? by {
      forall j | 0 <= j < i ensures IsValidDict(items[j], kind, []).Ok? {
        assert items[..i][j] == items[j];
      }
    }
    IndexOfFirstFailure(items, i, kind);
    RecordsOfFirstError(items, i, field, kind, make);
  }

  /** One step of the loop: element `i` either raises, adds its record, or is skipped. */
  lemma RecordsOfStep<R>(items: seq<Value>, i: nat, field: ListField, kind: DictKind, make: map<string, Value> -> R)
    requires IsElementKind(kind)
    requires i < |items|
    requires RecordsOf(items[..i], field, kind, make).Ok?
    ensures IsValidDict(items[i], kind, []).Err? ==>
              RecordsOf(items[..i+1], field, kind, make) == Err(AtIndex(IsValidDict(items[i], kind, []).error, field, i))
    ensures IsValidDict(items[i], kind, []) == Ok(true) ==>
              RecordsOf(items[..i+1], field, kind, make) ==
                Ok(RecordsOf(items[..i], field, kind, make).value + [make(items[i].d)])
    ensures IsValidDict(items[i], kind, []) == Ok(false) ==>
              RecordsOf(items[..i+1], field, kind, make) == RecordsOf(items[..i], field, kind, make)
  {
    assert items[..i+1][..i] == items[..i];
    assert items[..i+1][i] == items[i];
  }

  /** A bare dictionary gives the same records as the one-element list holding
      it, unless it raises a KeyError (which the list form reports with index 0). */
  lemma BareDictIsSingletonList<R>(x: Value, field: ListField, kind: DictKind, make: map<string, Value> -> R)
    requires IsElementKind(kind)
    requires !x.VList?
    requires !(IsValidDict(x, kind, []).Err? && IsValidDict(x, kind, []).error.KeyErr?)
    ensures FieldRecords(x, field, kind, make) == FieldRecords(VList([x]), field, kind, make)
  {
    assert [x][..0] == [];
    assert [x][..1] == [x];
    RecordsOfStep([x], 0, field, kind, make);
    if IsValidDict(x, kind, []) == Ok(true) {
      assert [] + [make(x.d)] == [make(x.d)];
    }
  }

  /** An absent or None field, and a None or empty dictionary, give no records
      and raise nothing. */
  lemma AbsentFieldIsEmpty<R>(x: Value, field: ListField, kind: DictKind, make: map<string, Value> -> R)
    requires IsElementKind(kind)
    requires x == VNone || x == VDict(map[]) || x == VList([])
    ensures FieldRecords(x, field, kind, make) == Ok([])
  {
  }

  /** The loop of `Switch.__init__` and `Diode.__init__` over one plural field. */
  method CollectRecords<R>(fieldValue: Value, field: ListField, kind: DictKind, make: map<string, Value> -> R)
    returns (r: Result<seq<R>>)
    requires IsElementKind(kind)
    ensures r == FieldRecords(fieldValue, field, kind, make)
  {
    var records: seq<R> := [];
    if fieldValue.VList? {
      var items := fieldValue.items;
      var i := 0;
      while i < |items|
        invariant 0 <= i <= |items|
        invariant RecordsOf(items[..i], field, kind, make) == Ok(records)
      {
        var valid := IsValidDict(items[i], kind, []);
        if valid.Err? {
          LoopStopsAt(items, i, field, kind, make);
          var e := valid.error;
          if e.KeyErr? {
            // the position `dict_list.index(dataset)` is meant to find
            var k := IndexOf(items, items[i]);
            e := KeyErr(Some(ListIndex(field, k)), e.reason);
          }
          return Err(e);
        }
        RecordsOfStep(items, i, field, kind, make);
        if valid.value {
          records := records + [make(items[i].d)];
        }
        i := i + 1;
      }
      assert items[..i] == items;
    } else {
      var valid := IsValidDict(fieldValue, kind, []);
      if valid.Err? {
        return Err(valid.error);
      }
      if valid.value {
        records := [make(fieldValue.d)];
      }
    }
    return Ok(records);
  }
}
