/** `Transistor.isvalid_dict`: the per-record-kind schema check that every
    record constructor runs on its argument dictionary. It answers False for an
    absent (None) or empty dictionary and raises for every other invalid one. */
module Validation {
  import opened Values
  import opened Housing

  const ChannelDataKeys: set<string> := {"t_j", "v_i_data"}
  const TransistorKeys: set<string> := {"name", "transistor_type", "v_max", "i_max", "i_cont"}
  const MetadataKeys: set<string> := {"author", "manufacturer", "housing_area", "cooling_area", "housing_type"}
  const TransistorTypes: set<Value> := {VStr("MOSFET"), VStr("IGBT")}

  /** The keys a SwitchEnergyData dictionary needs for its `dataset_type`, or
      None when the value names none of the three dataset types. */
  function EnergyKeysFor(datasetType: Value): (keys: Option<set<string>>)
    ensures keys.Some? <==> datasetType in {VStr("single"), VStr("graph_r_e"), VStr("graph_i_e")}
    ensures keys.Some? ==> {"t_j", "v_supply", "v_g"} <= keys.value
  {
    if datasetType == VStr("single") then Some({"t_j", "v_supply", "v_g", "e_x", "r_g", "i_x"})
    else if datasetType == VStr("graph_r_e") then Some({"t_j", "v_supply", "v_g", "r_e_data", "i_x"})
    else if datasetType == VStr("graph_i_e") then Some({"t_j", "v_supply", "v_g", "i_e_data", "r_g"})
    else None
  }

  /** `isvalid_dict(dataset_dict, dict_type)`; `housingTypes` is the content of
      the reference list of housing types (one entry per line of its file). */
  function IsValidDict(v: Value, kind: DictKind, housingTypes: seq<string>): (r: Result<bool>)
    ensures r == Ok(false) <==> v == VNone || v == VDict(map[])
    ensures !v.VNone? && !v.VDict? ==> r == Err(TypeErr(NotADict(kind)))
    ensures r == Ok(true) ==> v.VDict? && v.d != map[]
    ensures r.Err? ==> r.error.KeyErr? ==> r.error.at == None
  {
    match v
    case VNone => Ok(false)
    case VDict(d) =>
      if d == map[] then Ok(false)
      else (
        match kind
        case ChannelDataKind =>
          if d.Keys >= ChannelDataKeys then Ok(true) else Err(KeyErr(None, MissingChannelKeys))
        case SwitchEnergyDataKind =>
          if "dataset_type" !in d then Err(KeyErr(None, MissingDatasetType))
          else (
            match EnergyKeysFor(d["dataset_type"])
            case None => Err(ValueErr(BadDatasetType))
            case Some(keys) => if d.Keys >= keys then Ok(true) else Err(KeyErr(None, MissingEnergyKeys)))
        case TransistorKind =>
          if d.Keys < TransistorKeys then Err(KeyErr(None, MissingTransistorKeys))
          else if Get(d, "transistor_type") !in TransistorTypes then Err(ValueErr(BadTransistorType))
          else Ok(true)
        case MetadataKind =>
          if d.Keys < MetadataKeys then Err(KeyErr(None, MissingMetadataKeys))
          else (
            match Get(d, "housing_type")
            case VStr(s) =>
              if IsKnownHousingType(housingTypes, s) then Ok(true) else Err(ValueErr(BadHousingType(s)))
            case _ => Err(TypeErr(HousingTypeNotString)))
        case FosterThermalModelKind => Ok(true)
        case SwitchKind => Ok(true)
        case DiodeKind => Ok(true))
    case _ => Err(TypeErr(NotADict(kind)))
  }

  /** A ChannelData dictionary (present and non-empty) is valid exactly when it
      holds both 't_j' and 'v_i_data'; otherwise a KeyError is raised. */
  lemma ChannelDataRule(d: map<string, Value>, housingTypes: seq<string>)
    requires d != map[]
    ensures IsValidDict(VDict(d), ChannelDataKind, housingTypes) ==
              if "t_j" in d && "v_i_data" in d then Ok(true) else Err(KeyErr(None, MissingChannelKeys))
  {
  }

  /** The three checks of a SwitchEnergyData dictionary in their order: a
      missing 'dataset_type' first, then an unknown dataset type, then the keys
      that type needs. */
  lemma SwitchEnergyDataRule(d: map<string, Value>, housingTypes: seq<string>)
    requires d != map[]
    ensures "dataset_type" !in d ==>
              IsValidDict(VDict(d), SwitchEnergyDataKind, housingTypes) == Err(KeyErr(None, MissingDatasetType))
    ensures "dataset_type" in d && d["dataset_type"] !in {VStr("single"), VStr("graph_r_e"), VStr("graph_i_e")} ==>
              IsValidDict(VDict(d), SwitchEnergyDataKind, housingTypes) == Err(ValueErr(BadDatasetType))
    ensures "dataset_type" in d && d["dataset_type"] == VStr("single") ==>
              IsValidDict(VDict(d), SwitchEnergyDataKind, housingTypes) ==
                if {"t_j", "v_supply", "v_g", "e_x", "r_g", "i_x"} <= d.Keys then Ok(true)
                else Err(KeyErr(None, MissingEnergyKeys))
    ensures "dataset_type" in d && d["dataset_type"] == VStr("graph_r_e") ==>
              IsValidDict(VDict(d), SwitchEnergyDataKind, housingTypes) ==
                if {"t_j", "v_supply", "v_g", "r_e_data", "i_x"} <= d.Keys then Ok(true)
                else Err(KeyErr(None, MissingEnergyKeys))
    ensures "dataset_type" in d && d["dataset_type"] == VStr("graph_i_e") ==>
              IsValidDict(VDict(d), SwitchEnergyDataKind, housingTypes) ==
                if {"t_j", "v_supply", "v_g", "i_e_data", "r_g"} <= d.Keys then Ok(true)
                else Err(KeyErr(None, MissingEnergyKeys))
  {
  }

  /** For every dataset type, the dictionary holding exactly that type's keys is
      valid, and removing any one required key from it raises a KeyError. */
  lemma EnergyKeysExactlyRequired(datasetType: Value, d: map<string, Value>, missing: string, housingTypes: seq<string>)
    requires EnergyKeysFor(datasetType).Some?
    requires d.Keys == EnergyKeysFor(datasetType).value + {"dataset_type"}
    requires d["dataset_type"] == datasetType
    requires missing in EnergyKeysFor(datasetType).value
    ensures IsValidDict(VDict(d), SwitchEnergyDataKind, housingTypes) == Ok(true)
    ensures IsValidDict(VDict(d - {missing}), SwitchEnergyDataKind, housingTypes) ==
              Err(KeyErr(None, MissingEnergyKeys))
  {
    assert "t_j" in d;
    var e := d - {missing};
    assert "dataset_type" in e && e["dataset_type"] == datasetType;
    assert missing !in e.Keys;
    assert !(e.Keys >= EnergyKeysFor(datasetType).value);
    assert e != map[] by {
      assert "dataset_type" in e;
    }
  }

  /** The Transistor check as written: a KeyError only when the key set is a
      PROPER SUBSET of the five mandatory keys; then a ValueError unless
      'transistor_type' is MOSFET or IGBT. */
  lemma TransistorRule(d: map<string, Value>, housingTypes: seq<string>)
    requires d != map[]
    ensures IsValidDict(VDict(d), TransistorKind, housingTypes) ==
              if d.Keys < TransistorKeys then Err(KeyErr(None, MissingTransistorKeys))
              else if "transistor_type" in d && d["transistor_type"] in {VStr("MOSFET"), VStr("IGBT")} then Ok(true)
              else Err(ValueErr(BadTransistorType))
  {
  }

  /** A consequence of the proper-subset test: a dictionary with a key outside
      the mandatory set passes the key check although it lacks 'v_max', 'i_max'
      and 'i_cont'. */
  lemma TransistorSubsetQuirk(housingTypes: seq<string>)
    ensures IsValidDict(VDict(map["name" := VStr("x"), "transistor_type" := VStr("MOSFET"), "comment" := VNone]),
                        TransistorKind, housingTypes) == Ok(true)
  {
    var d := map["name" := VStr("x"), "transistor_type" := VStr("MOSFET"), "comment" := VNone];
    assert "comment" in d.Keys && "comment" !in TransistorKeys;
    assert !(d.Keys < TransistorKeys);
  }

  /** The Metadata check as written: a KeyError when the key set is a proper
      subset of the mandatory keys; a TypeError when 'housing_type' is not a
      string; a ValueError when it matches no reference entry. */
  lemma MetadataRule(d: map<string, Value>, housingTypes: seq<string>)
    requires d != map[]
    ensures d.Keys < MetadataKeys ==>
              IsValidDict(VDict(d), MetadataKind, housingTypes) == Err(KeyErr(None, MissingMetadataKeys))
    ensures !(d.Keys < MetadataKeys) && !Get(d, "housing_type").VStr? ==>
              IsValidDict(VDict(d), MetadataKind, housingTypes) == Err(TypeErr(HousingTypeNotString))
    ensures !(d.Keys < MetadataKeys) && Get(d, "housing_type").VStr? ==>
              IsValidDict(VDict(d), MetadataKind, housingTypes) ==
                if exists i :: 0 <= i < |housingTypes| &&
                     Normalize(housingTypes[i]) == Normalize(d["housing_type"].s)
                then Ok(true) else Err(ValueErr(BadHousingType(d["housing_type"].s)))
  {
    if !(d.Keys < MetadataKeys) && Get(d, "housing_type").VStr? {
      KnownIffSomeEntryMatches(housingTypes, d["housing_type"].s);
    }
  }

  /** Switch, Diode and FosterThermalModel have no mandatory keys: any
      non-empty dictionary is valid. */
  lemma OptionalKindsAcceptAnyDict(d: map<string, Value>, housingTypes: seq<string>)
    requires d != map[]
    ensures IsValidDict(VDict(d), SwitchKind, housingTypes) == Ok(true)
    ensures IsValidDict(VDict(d), DiodeKind, housingTypes) == Ok(true)
    ensures IsValidDict(VDict(d), FosterThermalModelKind, housingTypes) == Ok(true)
  {
  }

  /** The transistor arguments of the CREE C3M0016120K template, whose type is
      'SiC-MOSFET', hold all five mandatory keys and are still rejected with a
      ValueError, because only 'MOSFET' and 'IGBT' are accepted. */
  lemma SiCMosfetTemplateRejected(housingTypes: seq<string>)
    ensures IsValidDict(VDict(map["name" := VStr("CREE_C3M0016120K"), "transistor_type" := VStr("SiC-MOSFET"),
                                  "v_max" := VNum(1200.0), "i_max" := VNum(250.0), "i_cont" := VNum(115.0)]),
                        TransistorKind, housingTypes) == Err(ValueErr(BadTransistorType))
  {
    var d := map["name" := VStr("CREE_C3M0016120K"), "transistor_type" := VStr("SiC-MOSFET"),
                 "v_max" := VNum(1200.0), "i_max" := VNum(250.0), "i_cont" := VNum(115.0)];
    assert d.Keys == TransistorKeys;
    assert VStr("SiC-MOSFET") != VStr("MOSFET") by {
      assert "SiC-MOSFET"[0] != "MOSFET"[0];
    }
  }
}
