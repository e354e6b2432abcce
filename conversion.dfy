/** `DatabaseManager.convert_dict_to_transistor_object`, up to the final
    `Transistor(...)` call: a transport dictionary read back from JSON or
    MongoDB holds its curves as nested lists, and the converter turns a fixed
    set of them into arrays (`np.array`), in place, field by field. */
module Conversion {
  import opened Values

  /** What the converter does to one element of a list field. */
  datatype Step =
    | RetagKey(key: string)  // `elem[key] = np.array(elem[key])`
    | RetagEnergy            // the curve named by the element's own 'dataset_type'
    | RetagRaw               // every entry of the four 'dpt_*' lists of a measurement

  /** `v[key] = np.array(v[key])`: only the value at `key` changes. */
  function Retag(v: Value, key: string): (r: Result<Value>)
    ensures r.Ok? <==> v.VDict? && key in v.d
    ensures !v.VDict? ==> r == Err(TypeErr(NotSubscriptable))
    ensures v.VDict? && key !in v.d ==> r == Err(KeyErr(None, MissingKey(key)))
    ensures r.Ok? ==> r.value.VDict? && r.value.d.Keys == v.d.Keys && r.value.d[key] == ToArray(v.d[key])
    ensures r.Ok? ==> forall k :: k in v.d && k != key ==> r.value.d[k] == v.d[k]
  {
    var x :- Subscript(v, key);
    Ok(VDict(v.d[key := ToArray(x)]))
  }

  /** Every entry converted, in place and in order. */
  function ArrayEach(items: seq<Value>): (r: seq<Value>)
    ensures |r| == |items|
    ensures forall u :: 0 <= u < |items| ==> r[u] == ToArray(items[u])
  {
    seq(|items|, u requires 0 <= u < |items| => ToArray(items[u]))
  }

  /** `for u in range(len(v[key])): v[key][u] = np.array(v[key][u])`. The list
      is changed in place, so only a list is written back; an empty dictionary
      or string has length 0 and is left as it is. */
  function RetagEntries(v: Value, key: string): (r: Result<Value>)
    ensures r.Ok? ==> v.VDict? && key in v.d && r.value.VDict? && r.value.d.Keys == v.d.Keys
    ensures r.Ok? ==> forall k :: k in v.d && k != key ==> r.value.d[k] == v.d[k]
    ensures r.Ok? && v.d[key].VList? ==> r.value.d[key] == VList(ArrayEach(v.d[key].items))
    ensures r.Ok? && !v.d[key].VList? ==> r.value == v
  {
    var x :- Subscript(v, key);
    var items :- Indexable(x);
    Ok(if x.VList? then VDict(v.d[key := VList(ArrayEach(items))]) else v)
  }

  /** One element of a list field, converted. */
  function ApplyStep(step: Step, v: Value): (r: Result<Value>)
    ensures r.Ok? ==> v.VDict? && r.value.VDict? && r.value.d.Keys == v.d.Keys
  {
    match step
    case RetagKey(key) => Retag(v, key)
    case RetagEnergy =>
      var datasetType :- Subscript(v, "dataset_type");
      if datasetType == VStr("graph_r_e") then Retag(v, "graph_r_e")
      else if datasetType == VStr("graph_i_e") then Retag(v, "graph_i_e")
      else Ok(v)
    case RetagRaw =>
      var v1 :- RetagEntries(v, "dpt_on_vds");
      var v2 :- RetagEntries(v1, "dpt_on_id");
      var v3 :- RetagEntries(v2, "dpt_off_vds");
      RetagEntries(v3, "dpt_off_id")
  }

  /** The loop `for i in range(len(xs))` over a list field: each element in
      turn, the first error ending the loop. */
  function MapAll(items: seq<Value>, step: Step): (r: Result<seq<Value>>)
    ensures r.Ok? ==> |r.value| == |items|
    ensures r.Ok? ==> forall i :: 0 <= i < |items| ==>
                        items[i].VDict? && r.value[i].VDict? && r.value[i].d.Keys == items[i].d.Keys
    ensures r.Err? ==> exists i :: 0 <= i < |items| && ApplyStep(step, items[i]).Err? &&
                                  r.error == ApplyStep(step, items[i]).error
    decreases |items|
  {
    if items == [] then Ok([])
    else
      var first :- ApplyStep(step, items[0]);
      var rest :- MapAll(items[1..], step);
      Ok([first] + rest)
  }

  /** When the converter acts on a field. */
  datatype Presence =
    | Required             // always; KeyError when the key is missing
    | IfPresent            // `if key in d`
    | IfPresentAndNotNone  // `if key in d and d[key] is not None`
    | IfNotNone            // `if d[key] is not None`; KeyError when the key is missing

  /** One block of the converter: a list field whose elements are converted,
      a field converted as a whole, or a block applied inside a nested dictionary. */
  datatype Rule =
    | Each(key: string, step: Step, presence: Presence)
    | Whole(key: string, presence: Presence)
    | Within(outer: string, inner: Rule)

  /** The key of the dictionary a rule may change. */
  function RuleKey(rule: Rule): string {
    match rule
    case Each(key, _, _) => key
    case Whole(key, _) => key
    case Within(outer, _) => outer
  }

  /** Whether some block of `rules` may change the value under `k`. */
  predicate Names(rules: seq<Rule>, k: string) {
    exists i :: 0 <= i < |rules| && RuleKey(rules[i]) == k
  }

  /** Whether the block runs, or the KeyError its guard raises. */
  function Acts(m: map<string, Value>, key: string, presence: Presence): (r: Result<bool>)
    ensures r.Ok? && r.value ==> key in m
    ensures r.Err? <==> key !in m && (presence == Required || presence == IfNotNone)
  {
    match presence
    case Required => if key in m then Ok(true) else Err(KeyErr(None, MissingKey(key)))
    case IfPresent => Ok(key in m)
    case IfPresentAndNotNone => Ok(key in m && m[key] != VNone)
    case IfNotNone => if key in m then Ok(m[key] != VNone) else Err(KeyErr(None, MissingKey(key)))
  }

  /** One block. It adds no key and changes at most the value under its own key. */
  function ApplyRule(m: map<string, Value>, rule: Rule): (r: Result<map<string, Value>>)
    ensures r.Ok? ==> r.value.Keys == m.Keys
    ensures r.Ok? ==> forall k :: k in m && k != RuleKey(rule) ==> r.value[k] == m[k]
    decreases rule
  {
    match rule
    case Each(key, step, presence) =>
      var act :- Acts(m, key, presence);
      if !act then Ok(m)
      else
        var items :- Indexable(m[key]);
        var converted :- MapAll(items, step);
        Ok(if m[key].VList? then m[key := VList(converted)] else m)
    case Whole(key, presence) =>
      var act :- Acts(m, key, presence);
      if !act then Ok(m) else Ok(m[key := ToArray(m[key])])
    case Within(outer, inner) =>
      var sub :- Subscript(VDict(m), outer);
      if !sub.VDict? then Err(TypeErr(NotSubscriptable))
      else
        var d :- ApplyRule(sub.d, inner);
        Ok(m[outer := VDict(d)])
  }

  /** The blocks of one section, in the order of the source. No key is added,
      and a key no block names keeps its value. */
  function ApplyRules(m: map<string, Value>, rules: seq<Rule>): (r: Result<map<string, Value>>)
    ensures r.Ok? ==> r.value.Keys == m.Keys
    ensures r.Ok? ==> forall k :: k in m && !Names(rules, k) ==> r.value[k] == m[k]
    decreases |rules|
  {
    if rules == [] then Ok(m)
    else
      var m1 :- ApplyRule(m, rules[0]);
      ApplyRules(m1, rules[1..])
  }

  /** The transistor-level blocks. */
  const TopRules: seq<Rule> := [
    Each("c_oss", RetagKey("graph_v_c"), IfPresentAndNotNone),
    Each("c_iss", RetagKey("graph_v_c"), IfPresentAndNotNone),
    Each("c_rss", RetagKey("graph_v_c"), IfPresentAndNotNone),
    Whole("graph_v_ecoss", IfPresentAndNotNone),
    Each("raw_measurement_data", RetagRaw, IfPresent)]

  const ThermalRule: Rule := Within("thermal_foster", Whole("graph_t_rthjc", IfNotNone))

  /** The blocks applied to `transformer_dict['switch']`. */
  const SwitchRules: seq<Rule> := [
    ThermalRule,
    Each("channel", RetagKey("graph_v_i"), Required),
    Each("e_on", RetagEnergy, Required),
    Each("e_on_meas", RetagEnergy, IfPresent),
    Each("e_off", RetagEnergy, Required),
    Each("e_off_meas", RetagEnergy, IfPresent),
    Each("charge_curve", RetagKey("graph_q_v"), IfPresent),
    Each("r_channel_th", RetagKey("graph_t_r"), IfPresent),
    Each("soa", RetagKey("graph_i_v"), IfPresent)]

  /** The blocks applied to `transformer_dict['diode']`. */
  const DiodeRules: seq<Rule> := [
    ThermalRule,
    Each("channel", RetagKey("graph_v_i"), Required),
    Each("e_rr", RetagEnergy, Required),
    Each("soa", RetagKey("graph_i_v"), IfPresent)]

  /** The three arguments handed to `Transistor(...)`. The switch and diode
      arguments are the very dictionaries stored under 'switch' and 'diode'. */
  datatype TransistorArgs = TransistorArgs(
    transistor: map<string, Value>, switch: map<string, Value>, diode: map<string, Value>)

  /** `d[key]` used as a dictionary: a KeyError when absent, a TypeError when
      the value cannot be subscripted with a string. */
  function Section(m: map<string, Value>, key: string): (r: Result<map<string, Value>>)
    ensures r.Ok? <==> key in m && m[key].VDict?
    ensures r.Ok? ==> r.value == m[key].d
    ensures key !in m ==> r == Err(KeyErr(None, MissingKey(key)))
    ensures key in m && !m[key].VDict? ==> r == Err(TypeErr(NotSubscriptable))
  {
    var sub :- Subscript(VDict(m), key);
    if sub.VDict? then Ok(sub.d) else Err(TypeErr(NotSubscriptable))
  }

  /** The conversion with given block tables: the transistor-level blocks,
      then the switch section, then the diode section. When the
      transistor-level blocks leave 'switch' and 'diode' alone, the transistor
      dictionary keeps its keys, its 'switch' and 'diode' entries are the
      converted sections, and every other field no block names is unchanged. */
  function ConvertSections(td: map<string, Value>, topRules: seq<Rule>, switchRules: seq<Rule>, diodeRules: seq<Rule>)
    : (r: Result<TransistorArgs>)
    ensures ApplyRules(td, topRules).Err? ==> r == Err(ApplyRules(td, topRules).error)
    ensures ApplyRules(td, topRules).Ok? && !Names(topRules, "switch") ==>
              && ("switch" !in td ==> r == Err(KeyErr(None, MissingKey("switch"))))
              && ("switch" in td && !td["switch"].VDict? ==> r == Err(TypeErr(NotSubscriptable)))
    ensures !Names(topRules, "switch") && !Names(topRules, "diode") ==>
      (r.Ok? <==> && ApplyRules(td, topRules).Ok?
                  && "switch" in td && td["switch"].VDict? && ApplyRules(td["switch"].d, switchRules).Ok?
                  && "diode" in td && td["diode"].VDict? && ApplyRules(td["diode"].d, diodeRules).Ok?)
    ensures r.Ok? && !Names(topRules, "switch") && !Names(topRules, "diode") ==>
      && r.value.transistor.Keys == td.Keys
      && ApplyRules(td, topRules).Ok?
      && (forall k :: k in td && k != "switch" && k != "diode" ==> r.value.transistor[k] == ApplyRules(td, topRules).value[k])
      && "switch" in td && td["switch"].VDict? && r.value.transistor["switch"] == VDict(r.value.switch)
      && ApplyRules(td["switch"].d, switchRules) == Ok(r.value.switch)
      && "diode" in td && td["diode"].VDict? && r.value.transistor["diode"] == VDict(r.value.diode)
      && ApplyRules(td["diode"].d, diodeRules) == Ok(r.value.diode)
      && forall k :: k in td && k != "switch" && k != "diode" && !Names(topRules, k) ==> r.value.transistor[k] == td[k]
  {
    var top :- ApplyRules(td, topRules);
    var switch :- Section(top, "switch");
    var switch' :- ApplyRules(switch, switchRules);
    var top' := top["switch" := VDict(switch')];
    var diode :- Section(top', "diode");
    var diode' :- ApplyRules(diode, diodeRules);
    Ok(TransistorArgs(top'["diode" := VDict(diode')], switch', diode'))
  }

  /** The whole conversion, with the blocks of the source. */
  function ConvertTransport(td: map<string, Value>): (r: Result<TransistorArgs>)
    ensures ApplyRules(td, TopRules).Err? ==> r == Err(ApplyRules(td, TopRules).error)
    ensures ApplyRules(td, TopRules).Ok? && "switch" !in td ==> r == Err(KeyErr(None, MissingKey("switch")))
    ensures r.Ok? <==> && ApplyRules(td, TopRules).Ok?
                       && "switch" in td && td["switch"].VDict? && ApplyRules(td["switch"].d, SwitchRules).Ok?
                       && "diode" in td && td["diode"].VDict? && ApplyRules(td["diode"].d, DiodeRules).Ok?
    ensures r.Ok? ==>
      && r.value.transistor.Keys == td.Keys
      && ApplyRules(td, TopRules).Ok?
      && (forall k :: k in td && k != "switch" && k != "diode" ==> r.value.transistor[k] == ApplyRules(td, TopRules).value[k])
      && "switch" in td && td["switch"].VDict? && r.value.transistor["switch"] == VDict(r.value.switch)
      && ApplyRules(td["switch"].d, SwitchRules) == Ok(r.value.switch) && r.value.switch.Keys == td["switch"].d.Keys
      && "diode" in td && td["diode"].VDict? && r.value.transistor["diode"] == VDict(r.value.diode)
      && ApplyRules(td["diode"].d, DiodeRules) == Ok(r.value.diode) && r.value.diode.Keys == td["diode"].d.Keys
      && forall k :: k in td && k != "switch" && k != "diode" && !Names(TopRules, k) ==> r.value.transistor[k] == td[k]
  {
    TopRulesLeaveSections();
    ConvertSections(td, TopRules, SwitchRules, DiodeRules)
  }

  // ---------------------------------------------------------------- lemmas

  /** The loop over a list field completes exactly when every element
      converts, and then it converts each element in place: the length is
      kept and element i is the conversion of element i. */
  lemma {:induction false} MapAllElementwise(items: seq<Value>, step: Step)
    ensures MapAll(items, step).Ok? <==> forall i :: 0 <= i < |items| ==> ApplyStep(step, items[i]).Ok?
    ensures MapAll(items, step).Ok? ==>
              |MapAll(items, step).value| == |items| &&
              forall i :: 0 <= i < |items| ==> MapAll(items, step).value[i] == ApplyStep(step, items[i]).value
    decreases |items|
  {
    if items != [] {
      MapAllElementwise(items[1..], step);
      if forall i :: 0 <= i < |items| ==> ApplyStep(step, items[i]).Ok? {
        assert forall i :: 0 <= i < |items| - 1 ==> ApplyStep(step, items[1..][i]).Ok? by {
          forall i | 0 <= i < |items| - 1 ensures ApplyStep(step, items[1..][i]).Ok? {
            assert items[1..][i] == items[i + 1];
          }
        }
      }
      if MapAll(items, step).Ok? {
        var rest := MapAll(items[1..], step).value;
        forall i | 0 <= i < |items| ensures ApplyStep(step, items[i]).Ok? && MapAll(items, step).value[i] == ApplyStep(step, items[i]).value {
          if i > 0 {
            assert items[1..][i - 1] == items[i];
          }
        }
      }
    }
  }

  /** An error from element i ends the loop with that error, unchanged: the
      converter adds no index to it. */
  lemma {:induction false} MapAllFirstError(items: seq<Value>, step: Step, i: nat)
    requires i < |items|
    requires forall j :: 0 <= j < i ==> ApplyStep(step, items[j]).Ok?
    requires ApplyStep(step, items[i]).Err?
    ensures MapAll(items, step) == Err(ApplyStep(step, items[i]).error)
    decreases i
  {
    if i > 0 {
      assert items[1..][i - 1] == items[i];
      forall j | 0 <= j < i - 1 ensures ApplyStep(step, items[1..][j]).Ok? {
        assert items[1..][j] == items[j + 1];
      }
      MapAllFirstError(items[1..], step, i - 1);
    }
  }

  /** An energy record is converted by its own 'dataset_type': only the curve
      that type names changes, and any other type (such as 'single') leaves the
      record as it is. */
  lemma EnergyStepByType(v: Value)
    requires v.VDict? && "dataset_type" in v.d
    ensures v.d["dataset_type"] == VStr("graph_r_e") ==> ApplyStep(RetagEnergy, v) == Retag(v, "graph_r_e")
    ensures v.d["dataset_type"] == VStr("graph_i_e") ==> ApplyStep(RetagEnergy, v) == Retag(v, "graph_i_e")
    ensures v.d["dataset_type"] != VStr("graph_r_e") && v.d["dataset_type"] != VStr("graph_i_e") ==>
              ApplyStep(RetagEnergy, v) == Ok(v)
  {
  }

  lemma ArrayEachIdempotent(items: seq<Value>)
    ensures ArrayEach(ArrayEach(items)) == ArrayEach(items)
  {
    forall u | 0 <= u < |items| ensures ArrayEach(ArrayEach(items))[u] == ArrayEach(items)[u] {
      ToArrayIdempotent(items[u]);
    }
  }

  lemma RetagIdempotent(v: Value, key: string)
    requires Retag(v, key).Ok?
    ensures Retag(Retag(v, key).value, key) == Retag(v, key)
  {
    ToArrayIdempotent(v.d[key]);
    assert Retag(v, key).value.d[key := ToArray(ToArray(v.d[key]))] == Retag(v, key).value.d;
  }

  lemma RetagEntriesIdempotent(v: Value, key: string)
    requires RetagEntries(v, key).Ok?
    ensures RetagEntries(RetagEntries(v, key).value, key) == RetagEntries(v, key)
  {
    var w := RetagEntries(v, key).value;
    if v.d[key].VList? {
      ArrayEachIdempotent(v.d[key].items);
      assert w.d[key := VList(ArrayEach(ArrayEach(v.d[key].items)))] == w.d;
    }
  }

  /** Converting an element that is already converted changes nothing, so a
      dictionary can be converted again without harm. */
  lemma ApplyStepIdempotent(step: Step, v: Value)
    requires ApplyStep(step, v).Ok?
    ensures ApplyStep(step, ApplyStep(step, v).value) == ApplyStep(step, v)
  {
    match step
    case RetagKey(key) =>
      RetagIdempotent(v, key);
    case RetagEnergy =>
      if v.d["dataset_type"] == VStr("graph_r_e") {
        RetagIdempotent(v, "graph_r_e");
      } else if v.d["dataset_type"] == VStr("graph_i_e") {
        RetagIdempotent(v, "graph_i_e");
      }
    case RetagRaw =>
      RawIdempotent(v);
  }

  lemma RawIdempotent(v: Value)
    requires ApplyStep(RetagRaw, v).Ok?
    ensures ApplyStep(RetagRaw, ApplyStep(RetagRaw, v).value) == ApplyStep(RetagRaw, v)
  {
    var v1 := RetagEntries(v, "dpt_on_vds").value;
    var v2 := RetagEntries(v1, "dpt_on_id").value;
    var v3 := RetagEntries(v2, "dpt_off_vds").value;
    var v4 := RetagEntries(v3, "dpt_off_id").value;
    // each key is converted by exactly one of the four passes
    RetagEntriesIdempotent(v, "dpt_on_vds");
    RetagEntriesIdempotent(v1, "dpt_on_id");
    RetagEntriesIdempotent(v2, "dpt_off_vds");
    RetagEntriesIdempotent(v3, "dpt_off_id");
    assert RetagEntries(v4, "dpt_on_vds") == Ok(v4) by {
      assert v4.d["dpt_on_vds"] == RetagEntries(v, "dpt_on_vds").value.d["dpt_on_vds"];
      RetagEntriesIdempotent(v, "dpt_on_vds");
      if v4.d["dpt_on_vds"].VList? {
        ArrayEachIdempotent(v.d["dpt_on_vds"].items);
        assert v4.d["dpt_on_vds" := VList(ArrayEach(v4.d["dpt_on_vds"].items))] == v4.d;
      }
    }
    assert RetagEntries(v4, "dpt_on_id") == Ok(v4) by {
      assert v4.d["dpt_on_id"] == v2.d["dpt_on_id"];
      if v4.d["dpt_on_id"].VList? {
        ArrayEachIdempotent(v1.d["dpt_on_id"].items);
        assert v4.d["dpt_on_id" := VList(ArrayEach(v4.d["dpt_on_id"].items))] == v4.d;
      }
    }
    assert RetagEntries(v4, "dpt_off_vds") == Ok(v4) by {
      assert v4.d["dpt_off_vds"] == v3.d["dpt_off_vds"];
      if v4.d["dpt_off_vds"].VList? {
        ArrayEachIdempotent(v2.d["dpt_off_vds"].items);
        assert v4.d["dpt_off_vds" := VList(ArrayEach(v4.d["dpt_off_vds"].items))] == v4.d;
      }
    }
    assert RetagEntries(v4, "dpt_off_id") == Ok(v4) by {
      RetagEntriesIdempotent(v3, "dpt_off_id");
    }
  }

  /** A block for an optional field leaves a dictionary without that field
      as it is: optional fields are never added. The same holds when the field
      is None and the block checks for None. */
  lemma OptionalFieldUntouched(m: map<string, Value>, rule: Rule)
    requires rule.Each? || rule.Whole?
    requires rule.presence == IfPresent || rule.presence == IfPresentAndNotNone
    requires RuleKey(rule) !in m || (rule.presence == IfPresentAndNotNone && m[RuleKey(rule)] == VNone)
    ensures ApplyRule(m, rule) == Ok(m)
  {
  }

  /** A thermal curve that is None is left as it is, and the section is
      otherwise unchanged. */
  lemma ThermalNoneUntouched(m: map<string, Value>)
    requires "thermal_foster" in m && m["thermal_foster"].VDict?
    requires "graph_t_rthjc" in m["thermal_foster"].d && m["thermal_foster"].d["graph_t_rthjc"] == VNone
    ensures ApplyRule(m, ThermalRule) == Ok(m)
  {
    assert m["thermal_foster" := VDict(m["thermal_foster"].d)] == m;
  }

  /** A thermal curve that is present converts to an array (or stays as it is
      when it has no matrix shape). */
  lemma ThermalCurveConverted(m: map<string, Value>)
    requires "thermal_foster" in m && m["thermal_foster"].VDict?
    requires "graph_t_rthjc" in m["thermal_foster"].d && m["thermal_foster"].d["graph_t_rthjc"] != VNone
    ensures ApplyRule(m, ThermalRule).Ok?
    ensures ApplyRule(m, ThermalRule).value["thermal_foster"] ==
              VDict(m["thermal_foster"].d["graph_t_rthjc" := ToArray(m["thermal_foster"].d["graph_t_rthjc"])])
  {
  }

  /** A list field that exactly one block of a section names ends up as the
      element-wise conversion of the list it held before the section ran. */
  lemma {:induction false} EachRuleResult(m: map<string, Value>, rules: seq<Rule>, j: nat)
    requires j < |rules| && rules[j].Each?
    requires forall i :: 0 <= i < |rules| && i != j ==> RuleKey(rules[i]) != rules[j].key
    requires ApplyRules(m, rules).Ok?
    requires rules[j].key in m && m[rules[j].key].VList?
    ensures MapAll(m[rules[j].key].items, rules[j].step).Ok?
    ensures ApplyRules(m, rules).value[rules[j].key] == VList(MapAll(m[rules[j].key].items, rules[j].step).value)
    decreases j
  {
    var key := rules[j].key;
    var m1 := ApplyRule(m, rules[0]).value;
    assert ApplyRules(m, rules) == ApplyRules(m1, rules[1..]);
    if j == 0 {
      assert !Names(rules[1..], key) by {
        forall i | 0 <= i < |rules[1..]| ensures RuleKey(rules[1..][i]) != key {
          assert rules[1..][i] == rules[i + 1];
        }
      }
    } else {
      assert RuleKey(rules[0]) != key;
      forall i | 0 <= i < |rules[1..]| && i != j - 1 ensures RuleKey(rules[1..][i]) != rules[1..][j - 1].key {
        assert rules[1..][i] == rules[i + 1];
      }
      EachRuleResult(m1, rules[1..], j - 1);
    }
  }

  /** The same, element by element: the list keeps its length and element i
      is the conversion of element i. */
  lemma SectionListConverted(m: map<string, Value>, rules: seq<Rule>, j: nat)
    requires j < |rules| && rules[j].Each? && DistinctKeys(rules)
    requires ApplyRules(m, rules).Ok?
    requires rules[j].key in m && m[rules[j].key].VList?
    ensures var before := m[rules[j].key].items;
            var after := ApplyRules(m, rules).value[rules[j].key];
            && after.VList? && |after.items| == |before|
            && forall i :: 0 <= i < |before| ==>
                 ApplyStep(rules[j].step, before[i]).Ok? && after.items[i] == ApplyStep(rules[j].step, before[i]).value
  {
    assert forall i :: 0 <= i < |rules| && i != j ==> RuleKey(rules[i]) != rules[j].key by {
      forall i | 0 <= i < |rules| && i != j ensures RuleKey(rules[i]) != rules[j].key {
        if i < j { assert RuleKey(rules[i]) != RuleKey(rules[j]); } else { assert RuleKey(rules[j]) != RuleKey(rules[i]); }
      }
    }
    EachRuleResult(m, rules, j);
    MapAllElementwise(m[rules[j].key].items, rules[j].step);
  }

  /** No transistor-level block touches the 'switch' or 'diode' entry. */
  lemma TopRulesLeaveSections()
    ensures !Names(TopRules, "switch") && !Names(TopRules, "diode")
  {
    forall i | 0 <= i < |TopRules| ensures RuleKey(TopRules[i]) != "switch" && RuleKey(TopRules[i]) != "diode" {
    }
  }

  /** No two blocks of a table name the same field. */
  predicate DistinctKeys(rules: seq<Rule>) {
    forall i, j :: 0 <= i < j < |rules| ==> RuleKey(rules[i]) != RuleKey(rules[j])
  }

  lemma SwitchRulesDistinct()
    ensures DistinctKeys(SwitchRules)
  {
  }

  lemma DiodeRulesDistinct()
    ensures DiodeRules == [ThermalRule, SwitchRules[1], Each("e_rr", RetagEnergy, Required), SwitchRules[8]]
    ensures DistinctKeys(DiodeRules)
  {
  }

  /** A field whose block is `Required` is present in every section the
      blocks accept. */
  lemma {:induction false} RequiredFieldPresent(m: map<string, Value>, rules: seq<Rule>, j: nat)
    requires j < |rules| && rules[j].Each? && rules[j].presence == Required
    requires ApplyRules(m, rules).Ok?
    ensures rules[j].key in m
    decreases j
  {
    var m1 := ApplyRule(m, rules[0]).value;
    if j > 0 {
      assert rules[1..][j - 1] == rules[j];
      RequiredFieldPresent(m1, rules[1..], j - 1);
    }
  }

  /** What one list block does, by the state of its field: a missing field
      raises KeyError when the block requires it (or checks it for None); a
      field the guard lets through must be a list, an empty dictionary or an
      empty string (the loop over `range(len(...))` raises otherwise); and
      then the block succeeds exactly when every element converts, the first
      element that does not deciding the error. */
  lemma EachRuleOutcome(m: map<string, Value>, key: string, step: Step, presence: Presence)
    ensures key !in m && (presence == Required || presence == IfNotNone) ==>
              ApplyRule(m, Each(key, step, presence)) == Err(KeyErr(None, MissingKey(key)))
    ensures Acts(m, key, presence) == Ok(false) ==> ApplyRule(m, Each(key, step, presence)) == Ok(m)
    ensures Acts(m, key, presence) == Ok(true) && !m[key].VList? ==>
              ApplyRule(m, Each(key, step, presence)) ==
                (if m[key] == VDict(map[]) || m[key] == VStr("") then Ok(m) else Err(Indexable(m[key]).error))
    ensures Acts(m, key, presence) == Ok(true) && m[key].VList? ==>
              (ApplyRule(m, Each(key, step, presence)).Ok? <==>
                 forall i :: 0 <= i < |m[key].items| ==> ApplyStep(step, m[key].items[i]).Ok?)
    ensures Acts(m, key, presence) == Ok(true) && m[key].VList? ==>
              forall i :: 0 <= i < |m[key].items| && ApplyStep(step, m[key].items[i]).Err? &&
                          (forall j :: 0 <= j < i ==> ApplyStep(step, m[key].items[j]).Ok?) ==>
                ApplyRule(m, Each(key, step, presence)) == Err(ApplyStep(step, m[key].items[i]).error)
  {
    if Acts(m, key, presence) == Ok(true) && m[key].VList? {
      var items := m[key].items;
      MapAllElementwise(items, step);
      forall i | 0 <= i < |items| && ApplyStep(step, items[i]).Err? &&
                 (forall j :: 0 <= j < i ==> ApplyStep(step, items[j]).Ok?)
        ensures ApplyRule(m, Each(key, step, presence)) == Err(ApplyStep(step, items[i]).error)
      {
        MapAllFirstError(items, step, i);
      }
    }
  }

  /** A block reads nothing but the entry under its own key: two dictionaries
      that agree there give the same outcome, and the same error. */
  lemma ApplyRuleLocal(m: map<string, Value>, m': map<string, Value>, rule: Rule)
    requires RuleKey(rule) in m <==> RuleKey(rule) in m'
    requires RuleKey(rule) in m ==> m[RuleKey(rule)] == m'[RuleKey(rule)]
    ensures ApplyRule(m, rule).Ok? <==> ApplyRule(m', rule).Ok?
    ensures ApplyRule(m, rule).Err? ==> ApplyRule(m', rule) == ApplyRule(m, rule)
  {
  }

  /** The blocks after the first of a table with distinct keys have distinct
      keys too, and none of them names the first block's key. */
  lemma DistinctKeysTail(rules: seq<Rule>)
    requires |rules| > 0 && DistinctKeys(rules)
    ensures DistinctKeys(rules[1..])
    ensures forall j :: 0 <= j < |rules[1..]| ==> RuleKey(rules[1..][j]) != RuleKey(rules[0])
  {
    forall i, j | 0 <= i < j < |rules[1..]| ensures RuleKey(rules[1..][i]) != RuleKey(rules[1..][j]) {
      assert rules[1..][i] == rules[i + 1] && rules[1..][j] == rules[j + 1];
    }
  }

  /** When no two blocks name the same field, the blocks do not interfere: a
      section converts exactly when each block succeeds on the section as it
      was given. */
  lemma {:induction false} ApplyRulesOkIffEach(m: map<string, Value>, rules: seq<Rule>)
    requires DistinctKeys(rules)
    ensures ApplyRules(m, rules).Ok? <==> forall j :: 0 <= j < |rules| ==> ApplyRule(m, rules[j]).Ok?
    decreases |rules|
  {
    if rules != [] {
      DistinctKeysTail(rules);
      var first := ApplyRule(m, rules[0]);
      if first.Ok? {
        var m1 := first.value;
        forall j | 0 <= j < |rules[1..]| ensures ApplyRule(m1, rules[1..][j]).Ok? <==> ApplyRule(m, rules[j + 1]).Ok? {
          assert rules[1..][j] == rules[j + 1];
          ApplyRuleLocal(m, m1, rules[j + 1]);
        }
        ApplyRulesOkIffEach(m1, rules[1..]);
        if forall j :: 0 <= j < |rules| ==> ApplyRule(m, rules[j]).Ok? {
          assert forall j :: 0 <= j < |rules[1..]| ==> ApplyRule(m1, rules[1..][j]).Ok?;
        }
        if ApplyRules(m, rules).Ok? {
          forall j | 0 <= j < |rules| ensures ApplyRule(m, rules[j]).Ok? {
            if j > 0 {
              assert ApplyRule(m1, rules[1..][j - 1]).Ok?;
            }
          }
        }
      }
    }
  }

  /** When no two blocks name the same field, the first block that fails on
      the section as given decides the error. */
  lemma {:induction false} ApplyRulesFirstError(m: map<string, Value>, rules: seq<Rule>, j: nat)
    requires DistinctKeys(rules) && j < |rules|
    requires forall i :: 0 <= i < j ==> ApplyRule(m, rules[i]).Ok?
    requires ApplyRule(m, rules[j]).Err?
    ensures ApplyRules(m, rules) == Err(ApplyRule(m, rules[j]).error)
    decreases j
  {
    if j > 0 {
      DistinctKeysTail(rules);
      var m1 := ApplyRule(m, rules[0]).value;
      assert rules[1..][j - 1] == rules[j];
      ApplyRuleLocal(m, m1, rules[j]);
      forall i | 0 <= i < j - 1 ensures ApplyRule(m1, rules[1..][i]).Ok? {
        assert rules[1..][i] == rules[i + 1];
        ApplyRuleLocal(m, m1, rules[i + 1]);
      }
      ApplyRulesFirstError(m1, rules[1..], j - 1);
    }
  }

  /** A section without a field its table requires raises KeyError for that
      field, unless an earlier block has failed already. */
  lemma MissingRequiredField(section: map<string, Value>, rules: seq<Rule>, j: nat)
    requires DistinctKeys(rules) && j < |rules| && rules[j].Each? && rules[j].presence == Required
    requires rules[j].key !in section
    requires forall i :: 0 <= i < j ==> ApplyRule(section, rules[i]).Ok?
    ensures ApplyRules(section, rules) == Err(KeyErr(None, MissingKey(rules[j].key)))
  {
    EachRuleOutcome(section, rules[j].key, rules[j].step, rules[j].presence);
    ApplyRulesFirstError(section, rules, j);
  }

  lemma TopRulesDistinct()
    ensures DistinctKeys(TopRules)
  {
  }

  /** The whole conversion succeeds exactly when every block succeeds on the
      dictionary it is given: each transistor-level block on the transistor
      dictionary, and each section block on its section, which must be present
      and a dictionary. */
  lemma ConversionSucceedsIffEachBlock(td: map<string, Value>)
    ensures ConvertTransport(td).Ok? <==>
      && (forall j :: 0 <= j < |TopRules| ==> ApplyRule(td, TopRules[j]).Ok?)
      && "switch" in td && td["switch"].VDict?
      && (forall j :: 0 <= j < |SwitchRules| ==> ApplyRule(td["switch"].d, SwitchRules[j]).Ok?)
      && "diode" in td && td["diode"].VDict?
      && (forall j :: 0 <= j < |DiodeRules| ==> ApplyRule(td["diode"].d, DiodeRules[j]).Ok?)
  {
    TopRulesDistinct();
    SwitchRulesDistinct();
    DiodeRulesDistinct();
    ApplyRulesOkIffEach(td, TopRules);
    if "switch" in td && td["switch"].VDict? {
      ApplyRulesOkIffEach(td["switch"].d, SwitchRules);
    }
    if "diode" in td && td["diode"].VDict? {
      ApplyRulesOkIffEach(td["diode"].d, DiodeRules);
    }
  }

  /** Every channel record of a section has its 'graph_v_i' converted and
      nothing else; the list keeps its length. In both SwitchRules and
      DiodeRules the channel block is block 1. */
  lemma ChannelRecordsConverted(section: map<string, Value>, rules: seq<Rule>, j: nat)
    requires DistinctKeys(rules) && j < |rules| && rules[j] == Each("channel", RetagKey("graph_v_i"), Required)
    requires ApplyRules(section, rules).Ok?
    ensures "channel" in section
    ensures var before := section["channel"]; var after := ApplyRules(section, rules).value["channel"];
      before.VList? ==>
        && after.VList? && |after.items| == |before.items|
        && forall i :: 0 <= i < |before.items| ==> Retag(before.items[i], "graph_v_i") == Ok(after.items[i])
  {
    RequiredFieldPresent(section, rules, j);
    if section["channel"].VList? {
      SectionListConverted(section, rules, j);
    }
  }

  /** Every record of an energy list has the curve its own 'dataset_type'
      names converted, and a record of any other type is left as it is. The
      energy blocks are blocks 2 to 5 of SwitchRules (e_on, e_on_meas, e_off,
      e_off_meas) and block 2 of DiodeRules (e_rr). */
  lemma EnergyRecordsConverted(section: map<string, Value>, rules: seq<Rule>, j: nat)
    requires DistinctKeys(rules) && j < |rules| && rules[j].Each? && rules[j].step == RetagEnergy
    requires ApplyRules(section, rules).Ok?
    requires rules[j].key in section && section[rules[j].key].VList?
    ensures var before := section[rules[j].key]; var after := ApplyRules(section, rules).value[rules[j].key];
      && after.VList? && |after.items| == |before.items|
      && forall i :: 0 <= i < |before.items| ==>
           var e := before.items[i];
           && e.VDict? && "dataset_type" in e.d
           && (e.d["dataset_type"] == VStr("graph_r_e") ==> Retag(e, "graph_r_e") == Ok(after.items[i]))
           && (e.d["dataset_type"] == VStr("graph_i_e") ==> Retag(e, "graph_i_e") == Ok(after.items[i]))
           && (e.d["dataset_type"] != VStr("graph_r_e") && e.d["dataset_type"] != VStr("graph_i_e") ==> after.items[i] == e)
  {
    SectionListConverted(section, rules, j);
    var before := section[rules[j].key].items;
    forall i | 0 <= i < |before| {
      EnergyStepByType(before[i]);
    }
  }

  /** The thermal model of a section is a dictionary with a 'graph_t_rthjc'
      entry; that curve is converted when it is not None, and the thermal
      model is otherwise unchanged. The thermal block is block 0 of both
      SwitchRules and DiodeRules. */
  lemma ThermalCurveHandled(section: map<string, Value>, rules: seq<Rule>)
    requires DistinctKeys(rules) && |rules| > 0 && rules[0] == ThermalRule
    requires ApplyRules(section, rules).Ok?
    ensures "thermal_foster" in section && section["thermal_foster"].VDict?
    ensures var tf := section["thermal_foster"].d; var after := ApplyRules(section, rules).value["thermal_foster"];
      && "graph_t_rthjc" in tf
      && (tf["graph_t_rthjc"] == VNone ==> after == section["thermal_foster"])
      && (tf["graph_t_rthjc"] != VNone ==> after == VDict(tf["graph_t_rthjc" := ToArray(tf["graph_t_rthjc"])]))
  {
    var m1 := ApplyRule(section, ThermalRule).value;
    assert ApplyRules(section, rules) == ApplyRules(m1, rules[1..]);
    assert !Names(rules[1..], "thermal_foster") by {
      forall i | 0 <= i < |rules[1..]| ensures RuleKey(rules[1..][i]) != "thermal_foster" {
        assert rules[1..][i] == rules[i + 1];
        assert RuleKey(rules[0]) != RuleKey(rules[i + 1]);
      }
    }
    var tf := section["thermal_foster"].d;
    if tf["graph_t_rthjc"] == VNone {
      ThermalNoneUntouched(section);
    } else {
      ThermalCurveConverted(section);
    }
  }

  // ------------------------------------------------------------ the converter

  /** `for u in range(len(xs)): xs[u] = np.array(xs[u])`, in place. */
  method ConvertEntriesInPlace(items: seq<Value>) returns (xs: seq<Value>)
    ensures xs == ArrayEach(items)
  {
    xs := items;
    var u := 0;
    while u < |xs|
      invariant 0 <= u <= |xs| == |items|
      invariant forall w :: 0 <= w < u ==> xs[w] == ToArray(items[w])
      invariant forall w :: u <= w < |xs| ==> xs[w] == items[w]
    {
      xs := xs[u := ToArray(xs[u])];
      u := u + 1;
    }
  }

  /** One `for u` loop of a raw measurement entry. */
  method ConvertEntries(v: Value, key: string) returns (r: Result<Value>)
    ensures r == RetagEntries(v, key)
  {
    var x := Subscript(v, key);
    if x.Err? {
      return Err(x.error);
    }
    var items := Indexable(x.value);
    if items.Err? {
      return Err(items.error);
    }
    if x.value.VList? {
      var converted := ConvertEntriesInPlace(items.value);
      return Ok(VDict(v.d[key := VList(converted)]));
    }
    return Ok(v);
  }

  /** The body of one `for i` loop: element i of a list field. */
  method ConvertElement(step: Step, v: Value) returns (r: Result<Value>)
    ensures r == ApplyStep(step, v)
  {
    match step
    case RetagKey(key) =>
      r := Retag(v, key);
    case RetagEnergy =>
      var datasetType := Subscript(v, "dataset_type");
      if datasetType.Err? {
        return Err(datasetType.error);
      }
      if datasetType.value == VStr("graph_r_e") {
        r := Retag(v, "graph_r_e");
      } else if datasetType.value == VStr("graph_i_e") {
        r := Retag(v, "graph_i_e");
      } else {
        r := Ok(v);
      }
    case RetagRaw =>
      var v1 := ConvertEntries(v, "dpt_on_vds");
      if v1.Err? {
        return Err(v1.error);
      }
      var v2 := ConvertEntries(v1.value, "dpt_on_id");
      if v2.Err? {
        return Err(v2.error);
      }
      var v3 := ConvertEntries(v2.value, "dpt_off_vds");
      if v3.Err? {
        return Err(v3.error);
      }
      r := ConvertEntries(v3.value, "dpt_off_id");
  }

  /** `for i in range(len(xs)): ...` over a list field, element by element in
      place; an error from element i leaves the loop. */
  method ConvertList(items: seq<Value>, step: Step) returns (r: Result<seq<Value>>)
    ensures r == MapAll(items, step)
  {
    var xs := items;
    var i := 0;
    while i < |xs|
      invariant 0 <= i <= |xs| == |items|
      invariant forall j :: 0 <= j < i ==> ApplyStep(step, items[j]).Ok? && xs[j] == ApplyStep(step, items[j]).value
      invariant forall j :: i <= j < |xs| ==> xs[j] == items[j]
    {
      var converted := ConvertElement(step, xs[i]);
      if converted.Err? {
        MapAllFirstError(items, step, i);
        return Err(converted.error);
      }
      xs := xs[i := converted.value];
      i := i + 1;
    }
    MapAllElementwise(items, step);
    assert xs == MapAll(items, step).value;
    return Ok(xs);
  }

  /** One block of the converter. */
  method ConvertField(m: map<string, Value>, rule: Rule) returns (r: Result<map<string, Value>>)
    ensures r == ApplyRule(m, rule)
    decreases rule
  {
    match rule
    case Each(key, step, presence) =>
      var act := Acts(m, key, presence);
      if act.Err? {
        return Err(act.error);
      }
      if !act.value {
        return Ok(m);
      }
      var items := Indexable(m[key]);
      if items.Err? {
        return Err(items.error);
      }
      var converted := ConvertList(items.value, step);
      if converted.Err? {
        return Err(converted.error);
      }
      r := Ok(if m[key].VList? then m[key := VList(converted.value)] else m);
    case Whole(key, presence) =>
      var act := Acts(m, key, presence);
      if act.Err? {
        return Err(act.error);
      }
      r := Ok(if act.value then m[key := ToArray(m[key])] else m);
    case Within(outer, inner) =>
      var sub := Subscript(VDict(m), outer);
      if sub.Err? {
        return Err(sub.error);
      }
      if !sub.value.VDict? {
        return Err(TypeErr(NotSubscriptable));
      }
      var d := ConvertField(sub.value.d, inner);
      if d.Err? {
        return Err(d.error);
      }
      r := Ok(m[outer := VDict(d.value)]);
  }

  /** The blocks of one section, run in order. The source writes one block
      per field; the model walks the table of those blocks. */
  method ConvertSection(m: map<string, Value>, rules: seq<Rule>) returns (r: Result<map<string, Value>>)
    ensures r == ApplyRules(m, rules)
  {
    var cur := m;
    var j := 0;
    while j < |rules|
      invariant 0 <= j <= |rules|
      invariant ApplyRules(m, rules) == ApplyRules(cur, rules[j..])
    {
      assert rules[j..][0] == rules[j] && rules[j..][1..] == rules[j + 1..];
      var next := ConvertField(cur, rules[j]);
      if next.Err? {
        return Err(next.error);
      }
      cur := next.value;
      j := j + 1;
    }
    assert rules[j..] == [];
    return Ok(cur);
  }

  /** `convert_dict_to_transistor_object` up to the `Transistor(...)` call:
      the transistor-level fields, then `transformer_dict['switch']`, then
      `transformer_dict['diode']`, each converted in place. */
  method ConvertDictToTransistorObject(td: map<string, Value>) returns (r: Result<TransistorArgs>)
    ensures r == ConvertTransport(td)
  {
    var top := ConvertSection(td, TopRules);
    if top.Err? {
      return Err(top.error);
    }
    var switchArgs := Section(top.value, "switch");
    if switchArgs.Err? {
      return Err(switchArgs.error);
    }
    var switch := ConvertSection(switchArgs.value, SwitchRules);
    if switch.Err? {
      return Err(switch.error);
    }
    var converted := top.value["switch" := VDict(switch.value)];
    var diodeArgs := Section(converted, "diode");
    if diodeArgs.Err? {
      return Err(diodeArgs.error);
    }
    var diode := ConvertSection(diodeArgs.value, DiodeRules);
    if diode.Err? {
      return Err(diode.error);
    }
    r := Ok(TransistorArgs(converted["diode" := VDict(diode.value)], switch.value, diode.value));
  }
}
