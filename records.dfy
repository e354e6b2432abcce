/** The record classes nested in `Transistor` (databaseClasses.py): each is
    built once by its `__init__` from an argument dictionary and not changed
    afterwards, so each is a value here. The constructors that loop over list
    fields (Switch, Diode and Transistor itself) are methods proved against the
    functions `SwitchOf`, `DiodeOf` and `TransistorOf`. */
module Records {
  import opened Values
  import opened Housing
  import opened Validation
  import opened RecordLists

  /** Only 't_j' and 'v_i_data' are kept from the argument dictionary. */
  datatype ChannelData = ChannelData(t_j: Value, v_i_data: Value)

  datatype SwitchEnergyData = SwitchEnergyData(
    dataset_type: Value, v_supply: Value, v_g: Value, t_j: Value,
    e_x: Value, r_g: Value, i_x: Value, i_e_data: Value, r_e_data: Value)

  datatype FosterThermalModel = FosterThermalModel(
    r_th_total: Value, r_th_vector: Value, c_th_total: Value, c_th_vector: Value,
    tau_total: Value, tau_vector: Value, transient_data: Value)

  datatype Metadata = Metadata(
    author: Value, technology: Value, template_version: Value, template_date: Value,
    creation_date: Value, last_modified: Value, comment: Value, manufacturer: Value,
    datasheet_hyperlink: Value, datasheet_date: Value, datasheet_version: Value,
    housing_area: Value, cooling_area: Value, housing_type: string)

  datatype Switch = Switch(
    thermal: FosterThermalModel, c_oss: Value, c_iss: Value, c_rss: Value,
    comment: Value, manufacturer: Value, technology: Value,
    channel: seq<ChannelData>, e_on: seq<SwitchEnergyData>, e_off: seq<SwitchEnergyData>)

  datatype Diode = Diode(
    thermal: FosterThermalModel, comment: Value, manufacturer: Value, technology: Value,
    channel: seq<ChannelData>, e_rr: seq<SwitchEnergyData>)

  /** `i_cont` is checked by the validator but has no field. */
  datatype Transistor = Transistor(
    name: Value, transistor_type: Value, r_th_cs: Value, r_th_switch_cs: Value, r_th_diode_cs: Value,
    v_max: Value, i_max: Value, meta: Metadata, diode: Diode, switch: Switch)

  /** `ChannelData.__init__`: no validation of its own. */
  function ChannelDataOf(args: map<string, Value>): (r: ChannelData)
    ensures r.t_j == Get(args, "t_j") && r.v_i_data == Get(args, "v_i_data")
  {
    ChannelData(Get(args, "t_j"), Get(args, "v_i_data"))
  }

  /** `SwitchEnergyData.__init__`: no validation of its own; `v_g` is read from
      the key 'v_switch'. */
  function SwitchEnergyDataOf(args: map<string, Value>): (r: SwitchEnergyData)
    ensures r.dataset_type == Get(args, "dataset_type") && r.v_supply == Get(args, "v_supply")
    ensures r.v_g == Get(args, "v_switch") && r.t_j == Get(args, "t_j")
    ensures r.e_x == Get(args, "e_x") && r.r_g == Get(args, "r_g") && r.i_x == Get(args, "i_x")
    ensures r.i_e_data == Get(args, "i_e_data") && r.r_e_data == Get(args, "r_e_data")
  {
    SwitchEnergyData(Get(args, "dataset_type"), Get(args, "v_supply"), Get(args, "v_switch"), Get(args, "t_j"),
                     Get(args, "e_x"), Get(args, "r_g"), Get(args, "i_x"), Get(args, "i_e_data"), Get(args, "r_e_data"))
  }

  /** A thermal model with every field None. */
  const NoThermalModel := FosterThermalModel(VNone, VNone, VNone, VNone, VNone, VNone, VNone)

  /** `FosterThermalModel.__init__`: all fields None for None or empty
      arguments, a TypeError for arguments that are not a dictionary. */
  function FosterThermalModelOf(args: Value): (r: Result<FosterThermalModel>)
    ensures r.Err? <==> !args.VNone? && !args.VDict?
    ensures r.Err? ==> r.error == TypeErr(NotADict(FosterThermalModelKind))
    ensures args == VNone || args == VDict(map[]) ==> r == Ok(NoThermalModel)
    ensures args.VDict? ==> r.Ok?
    ensures r.Ok? && args.VDict? ==>
      && r.value.r_th_total == Get(args.d, "r_th_total") && r.value.r_th_vector == Get(args.d, "r_th_vector")
      && r.value.c_th_total == Get(args.d, "c_th_total") && r.value.c_th_vector == Get(args.d, "c_th_vector")
      && r.value.tau_total == Get(args.d, "tau_total") && r.value.tau_vector == Get(args.d, "tau_vector")
      && r.value.transient_data == Get(args.d, "transient_data")
  {
    var valid :- IsValidDict(args, FosterThermalModelKind, []);
    if valid then
      var d := args.d;
      Ok(FosterThermalModel(Get(d, "r_th_total"), Get(d, "r_th_vector"), Get(d, "c_th_total"),
                            Get(d, "c_th_vector"), Get(d, "tau_total"), Get(d, "tau_vector"),
                            Get(d, "transient_data")))
    else
      Ok(NoThermalModel)
  }

  /** `Metadata.__init__`: validates again, then stores the reference list's
      spelling of the housing type instead of the user's. */
  function MetadataOf(args: Value, housingTypes: seq<string>): (r: Result<Metadata>)
    ensures r.Ok? <==> IsValidDict(args, MetadataKind, housingTypes) == Ok(true)
    ensures IsValidDict(args, MetadataKind, housingTypes) == Ok(false) ==> r == Err(TypeErr(MetadataArgsEmpty))
    ensures r.Ok? ==> r.value.housing_type in housingTypes
    ensures r.Ok? ==> Get(args.d, "housing_type").VStr? &&
                      Normalize(r.value.housing_type) == Normalize(Get(args.d, "housing_type").s)
    ensures r.Ok? ==> IsKnownHousingType(housingTypes, Get(args.d, "housing_type").s) &&
                      r.value.housing_type == CanonicalHousingType(housingTypes, Get(args.d, "housing_type").s)
    // the entry stored is the first one in the list with the input's normal form
    ensures r.Ok? ==> exists i :: 0 <= i < |housingTypes| && r.value.housing_type == housingTypes[i] &&
                        Normalize(housingTypes[i]) == Normalize(Get(args.d, "housing_type").s) &&
                        forall j :: 0 <= j < i ==> Normalize(housingTypes[j]) != Normalize(Get(args.d, "housing_type").s)
    ensures r.Ok? ==>
      var d := args.d;
      && r.value.author == Get(d, "author") && r.value.technology == Get(d, "meta_type")
      && r.value.template_version == Get(d, "template_version") && r.value.template_date == Get(d, "template_date")
      && r.value.creation_date == Get(d, "creation_date") && r.value.last_modified == Get(d, "ast_modified")
      && r.value.comment == Get(d, "comment") && r.value.manufacturer == Get(d, "manufacturer")
      && r.value.datasheet_hyperlink == Get(d, "datasheet_hyperlink")
      && r.value.datasheet_date == Get(d, "datasheet_date") && r.value.datasheet_version == Get(d, "datasheet_version")
      && r.value.housing_area == Get(d, "housing_area") && r.value.cooling_area == Get(d, "cooling_area")
  {
    var valid :- IsValidDict(args, MetadataKind, housingTypes);
    if !valid then Err(TypeErr(MetadataArgsEmpty))
    else
      var d := args.d;
      assert Get(d, "housing_type").VStr? && IsKnownHousingType(housingTypes, Get(d, "housing_type").s) by {
        assert !(d.Keys < MetadataKeys);
      }
      Ok(Metadata(Get(d, "author"), Get(d, "meta_type"), Get(d, "template_version"), Get(d, "template_date"),
                  Get(d, "creation_date"), Get(d, "ast_modified"), Get(d, "comment"), Get(d, "manufacturer"),
                  Get(d, "datasheet_hyperlink"), Get(d, "datasheet_date"), Get(d, "datasheet_version"),
                  Get(d, "housing_area"), Get(d, "cooling_area"),
                  CanonicalHousingType(housingTypes, Get(d, "housing_type").s)))
  }

  /** The Switch of None or empty switch arguments. */
  function EmptySwitch(thermal: FosterThermalModel): Switch {
    Switch(thermal, VNone, VNone, VNone, VNone, VNone, VNone, [], [], [])
  }

  /** The Diode of None or empty diode arguments. */
  function EmptyDiode(thermal: FosterThermalModel): Diode {
    Diode(thermal, VNone, VNone, VNone, [], [])
  }

  /** `Switch.__init__`: the thermal model first, then the switch arguments,
      then the lists `channel`, `e_on` and `e_off` in this order. */
  function SwitchOf(switchArgs: Value, fosterArgs: Value): (r: Result<Switch>)
    ensures FosterThermalModelOf(fosterArgs).Err? ==> r == Err(FosterThermalModelOf(fosterArgs).error)
    ensures FosterThermalModelOf(fosterArgs).Ok? && IsValidDict(switchArgs, SwitchKind, []).Err? ==>
              r == Err(IsValidDict(switchArgs, SwitchKind, []).error)
    ensures r.Ok? ==> r.value.thermal == FosterThermalModelOf(fosterArgs).value
    ensures FosterThermalModelOf(fosterArgs).Ok? && IsValidDict(switchArgs, SwitchKind, []) == Ok(false) ==>
              r == Ok(EmptySwitch(FosterThermalModelOf(fosterArgs).value))
    ensures IsValidDict(switchArgs, SwitchKind, []) == Ok(true) ==>
      var d := switchArgs.d;
      && (r.Ok? <==> FosterThermalModelOf(fosterArgs).Ok?
                     && FieldRecords(Get(d, "channel"), SwitchChannel, ChannelDataKind, ChannelDataOf).Ok?
                     && FieldRecords(Get(d, "e_on"), SwitchEOn, SwitchEnergyDataKind, SwitchEnergyDataOf).Ok?
                     && FieldRecords(Get(d, "e_off"), SwitchEOff, SwitchEnergyDataKind, SwitchEnergyDataOf).Ok?)
      && (r.Ok? ==>
            && r.value.channel == FieldRecords(Get(d, "channel"), SwitchChannel, ChannelDataKind, ChannelDataOf).value
            && r.value.e_on == FieldRecords(Get(d, "e_on"), SwitchEOn, SwitchEnergyDataKind, SwitchEnergyDataOf).value
            && r.value.e_off == FieldRecords(Get(d, "e_off"), SwitchEOff, SwitchEnergyDataKind, SwitchEnergyDataOf).value
            && r.value.c_oss == Get(d, "c_oss") && r.value.c_iss == Get(d, "c_iss") && r.value.c_rss == Get(d, "c_rss")
            && r.value.comment == Get(d, "comment") && r.value.manufacturer == Get(d, "manufacturer")
            && r.value.technology == Get(d, "technology"))
    // the lists are built in the order channel, e_on, e_off and the first that raises decides the error
    ensures FosterThermalModelOf(fosterArgs).Ok? && IsValidDict(switchArgs, SwitchKind, []) == Ok(true) ==>
      var d := switchArgs.d;
      var channel := FieldRecords(Get(d, "channel"), SwitchChannel, ChannelDataKind, ChannelDataOf);
      var eOn := FieldRecords(Get(d, "e_on"), SwitchEOn, SwitchEnergyDataKind, SwitchEnergyDataOf);
      var eOff := FieldRecords(Get(d, "e_off"), SwitchEOff, SwitchEnergyDataKind, SwitchEnergyDataOf);
      && (channel.Err? ==> r == Err(channel.error))
      && (channel.Ok? && eOn.Err? ==> r == Err(eOn.error))
      && (channel.Ok? && eOn.Ok? && eOff.Err? ==> r == Err(eOff.error))
  {
    var thermal :- FosterThermalModelOf(fosterArgs);
    var valid :- IsValidDict(switchArgs, SwitchKind, []);
    if !valid then Ok(EmptySwitch(thermal))
    else
      var d := switchArgs.d;
      var channel :- FieldRecords(Get(d, "channel"), SwitchChannel, ChannelDataKind, ChannelDataOf);
      var eOn :- FieldRecords(Get(d, "e_on"), SwitchEOn, SwitchEnergyDataKind, SwitchEnergyDataOf);
      var eOff :- FieldRecords(Get(d, "e_off"), SwitchEOff, SwitchEnergyDataKind, SwitchEnergyDataOf);
      Ok(Switch(thermal, Get(d, "c_oss"), Get(d, "c_iss"), Get(d, "c_rss"), Get(d, "comment"),
                Get(d, "manufacturer"), Get(d, "technology"), channel, eOn, eOff))
  }

  /** `Diode.__init__`: the thermal model first, then the diode arguments, then
      the lists `channel` and `e_rr`. */
  function DiodeOf(diodeArgs: Value, fosterArgs: Value): (r: Result<Diode>)
    ensures FosterThermalModelOf(fosterArgs).Err? ==> r == Err(FosterThermalModelOf(fosterArgs).error)
    ensures FosterThermalModelOf(fosterArgs).Ok? && IsValidDict(diodeArgs, DiodeKind, []).Err? ==>
              r == Err(IsValidDict(diodeArgs, DiodeKind, []).error)
    ensures r.Ok? ==> r.value.thermal == FosterThermalModelOf(fosterArgs).value
    ensures FosterThermalModelOf(fosterArgs).Ok? && IsValidDict(diodeArgs, DiodeKind, []) == Ok(false) ==>
              r == Ok(EmptyDiode(FosterThermalModelOf(fosterArgs).value))
    ensures IsValidDict(diodeArgs, DiodeKind, []) == Ok(true) ==>
      var d := diodeArgs.d;
      && (r.Ok? <==> FosterThermalModelOf(fosterArgs).Ok?
                     && FieldRecords(Get(d, "channel"), DiodeChannel, ChannelDataKind, ChannelDataOf).Ok?
                     && FieldRecords(Get(d, "e_rr"), DiodeERr, SwitchEnergyDataKind, SwitchEnergyDataOf).Ok?)
      && (r.Ok? ==>
            && r.value.channel == FieldRecords(Get(d, "channel"), DiodeChannel, ChannelDataKind, ChannelDataOf).value
            && r.value.e_rr == FieldRecords(Get(d, "e_rr"), DiodeERr, SwitchEnergyDataKind, SwitchEnergyDataOf).value
            && r.value.comment == Get(d, "comment") && r.value.manufacturer == Get(d, "manufacturer")
            && r.value.technology == Get(d, "technology"))
    // the lists are built in the order channel, e_rr and the first that raises decides the error
    ensures FosterThermalModelOf(fosterArgs).Ok? && IsValidDict(diodeArgs, DiodeKind, []) == Ok(true) ==>
      var d := diodeArgs.d;
      var channel := FieldRecords(Get(d, "channel"), DiodeChannel, ChannelDataKind, ChannelDataOf);
      var eRr := FieldRecords(Get(d, "e_rr"), DiodeERr, SwitchEnergyDataKind, SwitchEnergyDataOf);
      && (channel.Err? ==> r == Err(channel.error))
      && (channel.Ok? && eRr.Err? ==> r == Err(eRr.error))
  {
    var thermal :- FosterThermalModelOf(fosterArgs);
    var valid :- IsValidDict(diodeArgs, DiodeKind, []);
    if !valid then Ok(EmptyDiode(thermal))
    else
      var d := diodeArgs.d;
      var channel :- FieldRecords(Get(d, "channel"), DiodeChannel, ChannelDataKind, ChannelDataOf);
      var eRr :- FieldRecords(Get(d, "e_rr"), DiodeERr, SwitchEnergyDataKind, SwitchEnergyDataOf);
      Ok(Diode(thermal, Get(d, "comment"), Get(d, "manufacturer"), Get(d, "technology"), channel, eRr))
  }

  /** `Transistor.__init__`: the transistor and metadata arguments are
      mandatory; the diode is built before the switch. `r_th_switch_cs` is read
      from the key 'r_th_switch'. */
  function TransistorOf(transistorArgs: Value, metadataArgs: Value, fosterArgs: Value,
                        switchArgs: Value, diodeArgs: Value, housingTypes: seq<string>): (r: Result<Transistor>)
    ensures IsValidDict(transistorArgs, TransistorKind, housingTypes).Err? ==>
              r == Err(IsValidDict(transistorArgs, TransistorKind, housingTypes).error)
    ensures IsValidDict(transistorArgs, TransistorKind, housingTypes) == Ok(false) ==> r == Err(TypeErr(TransistorArgsEmpty))
    ensures IsValidDict(transistorArgs, TransistorKind, housingTypes) == Ok(true) ==>
              && (IsValidDict(metadataArgs, MetadataKind, housingTypes).Err? ==>
                    r == Err(IsValidDict(metadataArgs, MetadataKind, housingTypes).error))
              && (IsValidDict(metadataArgs, MetadataKind, housingTypes) == Ok(false) ==> r == Err(TypeErr(MetadataArgsEmpty)))
    ensures r.Ok? ==> r.value.meta == MetadataOf(metadataArgs, housingTypes).value
  {
    var tValid :- IsValidDict(transistorArgs, TransistorKind, housingTypes);
    if !tValid then Err(TypeErr(TransistorArgsEmpty))
    else
      var mValid :- IsValidDict(metadataArgs, MetadataKind, housingTypes);
      if !mValid then Err(TypeErr(MetadataArgsEmpty))
      else TransistorFrom(transistorArgs.d, MetadataOf(metadataArgs, housingTypes),
                          DiodeOf(diodeArgs, fosterArgs), SwitchOf(switchArgs, fosterArgs))
  }

  /** The transistor built from its validated arguments `t` and its parts; the
      first part that raised, in the order metadata, diode, switch, decides the
      error. */
  function TransistorFrom(t: map<string, Value>, meta: Result<Metadata>, diode: Result<Diode>,
                          switch: Result<Switch>): (r: Result<Transistor>)
    ensures r.Ok? <==> meta.Ok? && diode.Ok? && switch.Ok?
    ensures meta.Err? ==> r == Err(meta.error)
    ensures meta.Ok? && diode.Err? ==> r == Err(diode.error)
    ensures meta.Ok? && diode.Ok? && switch.Err? ==> r == Err(switch.error)
    ensures r.Ok? ==> r.value.meta == meta.value && r.value.diode == diode.value && r.value.switch == switch.value
    ensures r.Ok? ==> r.value.name == Get(t, "name") && r.value.transistor_type == Get(t, "transistor_type")
                      && r.value.r_th_cs == Get(t, "r_th_cs") && r.value.r_th_switch_cs == Get(t, "r_th_switch")
                      && r.value.r_th_diode_cs == Get(t, "r_th_diode_cs")
                      && r.value.v_max == Get(t, "v_max") && r.value.i_max == Get(t, "i_max")
  {
    if meta.Err? then Err(meta.error)
    else if diode.Err? then Err(diode.error)
    else if switch.Err? then Err(switch.error)
    else Ok(Transistor(Get(t, "name"), Get(t, "transistor_type"), Get(t, "r_th_cs"), Get(t, "r_th_switch"),
                       Get(t, "r_th_diode_cs"), Get(t, "v_max"), Get(t, "i_max"), meta.value, diode.value, switch.value))
  }

  /** None or empty switch, diode and thermal arguments are allowed and give
      parts whose fields are all None and whose lists are empty. */
  lemma EmptyPartsAreAllowed(switchArgs: Value, diodeArgs: Value, fosterArgs: Value)
    requires switchArgs == VNone || switchArgs == VDict(map[])
    requires diodeArgs == VNone || diodeArgs == VDict(map[])
    requires fosterArgs == VNone || fosterArgs == VDict(map[])
    ensures SwitchOf(switchArgs, fosterArgs) == Ok(EmptySwitch(NoThermalModel))
    ensures DiodeOf(diodeArgs, fosterArgs) == Ok(EmptyDiode(NoThermalModel))
  {
  }

  /** Thermal arguments that are neither None nor a dictionary make both parts
      raise the TypeError of the thermal model, whatever their own arguments. */
  lemma ThermalArgumentsMustBeADict(switchArgs: Value, diodeArgs: Value, fosterArgs: Value)
    requires !fosterArgs.VNone? && !fosterArgs.VDict?
    ensures SwitchOf(switchArgs, fosterArgs) == Err(TypeErr(NotADict(FosterThermalModelKind)))
    ensures DiodeOf(diodeArgs, fosterArgs) == Err(TypeErr(NotADict(FosterThermalModelKind)))
  {
  }

  /** The transistor and metadata arguments are mandatory: None or an empty
      dictionary for either raises a TypeError, the transistor's first. */
  lemma MandatoryArguments(transistorArgs: Value, metadataArgs: Value, fosterArgs: Value,
                           switchArgs: Value, diodeArgs: Value, housingTypes: seq<string>)
    ensures transistorArgs == VNone || transistorArgs == VDict(map[]) ==>
              TransistorOf(transistorArgs, metadataArgs, fosterArgs, switchArgs, diodeArgs, housingTypes) ==
                Err(TypeErr(TransistorArgsEmpty))
    ensures IsValidDict(transistorArgs, TransistorKind, housingTypes) == Ok(true) &&
            (metadataArgs == VNone || metadataArgs == VDict(map[])) ==>
              TransistorOf(transistorArgs, metadataArgs, fosterArgs, switchArgs, diodeArgs, housingTypes) ==
                Err(TypeErr(MetadataArgsEmpty))
  {
  }

  /** A transistor is built exactly when both mandatory dictionaries validate
      True and the diode and the switch can be built. */
  lemma TransistorBuiltIff(transistorArgs: Value, metadataArgs: Value, fosterArgs: Value,
                           switchArgs: Value, diodeArgs: Value, housingTypes: seq<string>)
    ensures TransistorOf(transistorArgs, metadataArgs, fosterArgs, switchArgs, diodeArgs, housingTypes).Ok? <==>
              IsValidDict(transistorArgs, TransistorKind, housingTypes) == Ok(true) &&
              IsValidDict(metadataArgs, MetadataKind, housingTypes) == Ok(true) &&
              DiodeOf(diodeArgs, fosterArgs).Ok? && SwitchOf(switchArgs, fosterArgs).Ok?
  {
  }

  /** What a built transistor holds: a type of MOSFET or IGBT, the reference
      list's spelling of the housing type, the diode and switch built from their
      own arguments, and the switch's thermal resistance read from
      'r_th_switch' (so a value given as 'r_th_switch_cs' is not kept). */
  lemma BuiltTransistor(transistorArgs: Value, metadataArgs: Value, fosterArgs: Value,
                        switchArgs: Value, diodeArgs: Value, housingTypes: seq<string>)
    requires TransistorOf(transistorArgs, metadataArgs, fosterArgs, switchArgs, diodeArgs, housingTypes).Ok?
    ensures transistorArgs.VDict? && metadataArgs.VDict?
    ensures var tr := TransistorOf(transistorArgs, metadataArgs, fosterArgs, switchArgs, diodeArgs, housingTypes).value;
      && tr.transistor_type in TransistorTypes
      && tr.transistor_type == Get(transistorArgs.d, "transistor_type")
      && tr.r_th_switch_cs == Get(transistorArgs.d, "r_th_switch")
      && tr.meta.housing_type in housingTypes
      && Normalize(tr.meta.housing_type) == Normalize(Get(metadataArgs.d, "housing_type").s)
      && IsKnownHousingType(housingTypes, Get(metadataArgs.d, "housing_type").s)
      && tr.meta.housing_type == CanonicalHousingType(housingTypes, Get(metadataArgs.d, "housing_type").s)
      && tr.meta.technology == Get(metadataArgs.d, "meta_type")
      && tr.meta.last_modified == Get(metadataArgs.d, "ast_modified")
      && tr.diode == DiodeOf(diodeArgs, fosterArgs).value
      && tr.switch == SwitchOf(switchArgs, fosterArgs).value
  {
  }

  /** The records of a switch's channel list are those of its entries that
      validate True, in list order: None and empty entries are skipped. */
  lemma SwitchChannelKeepsValidEntries(switchArgs: Value, fosterArgs: Value)
    requires SwitchOf(switchArgs, fosterArgs).Ok?
    requires switchArgs.VDict? && Get(switchArgs.d, "channel").VList?
    ensures SwitchOf(switchArgs, fosterArgs).value.channel ==
              MapMake(ValidDicts(Get(switchArgs.d, "channel").items, ChannelDataKind), ChannelDataOf)
  {
    RecordsOfKeepsValid(Get(switchArgs.d, "channel").items, SwitchChannel, ChannelDataKind, ChannelDataOf);
  }

  /** A switch whose channel list fails at entry k, after entries that all
      validate, raises the entry's KeyError with index k (other errors
      unchanged); e_on and e_off are not looked at. */
  lemma SwitchChannelErrorIndexed(switchArgs: Value, fosterArgs: Value, k: nat)
    requires FosterThermalModelOf(fosterArgs).Ok? && IsValidDict(switchArgs, SwitchKind, []) == Ok(true)
    requires Get(switchArgs.d, "channel").VList? && k < |Get(switchArgs.d, "channel").items|
    requires forall j :: 0 <= j < k ==> IsValidDict(Get(switchArgs.d, "channel").items[j], ChannelDataKind, []).Ok?
    requires IsValidDict(Get(switchArgs.d, "channel").items[k], ChannelDataKind, []).Err?
    ensures SwitchOf(switchArgs, fosterArgs) ==
              Err(AtIndex(IsValidDict(Get(switchArgs.d, "channel").items[k], ChannelDataKind, []).error, SwitchChannel, k))
  {
    RecordsOfFirstError(Get(switchArgs.d, "channel").items, k, SwitchChannel, ChannelDataKind, ChannelDataOf);
  }

  /** A diode whose e_rr list fails at entry k, after a channel list that
      builds and e_rr entries that all validate, raises the entry's KeyError
      with index k (other errors unchanged). */
  lemma DiodeRecoveryErrorIndexed(diodeArgs: Value, fosterArgs: Value, k: nat)
    requires FosterThermalModelOf(fosterArgs).Ok? && IsValidDict(diodeArgs, DiodeKind, []) == Ok(true)
    requires FieldRecords(Get(diodeArgs.d, "channel"), DiodeChannel, ChannelDataKind, ChannelDataOf).Ok?
    requires Get(diodeArgs.d, "e_rr").VList? && k < |Get(diodeArgs.d, "e_rr").items|
    requires forall j :: 0 <= j < k ==> IsValidDict(Get(diodeArgs.d, "e_rr").items[j], SwitchEnergyDataKind, []).Ok?
    requires IsValidDict(Get(diodeArgs.d, "e_rr").items[k], SwitchEnergyDataKind, []).Err?
    ensures DiodeOf(diodeArgs, fosterArgs) ==
              Err(AtIndex(IsValidDict(Get(diodeArgs.d, "e_rr").items[k], SwitchEnergyDataKind, []).error, DiodeERr, k))
  {
    RecordsOfFirstError(Get(diodeArgs.d, "e_rr").items, k, DiodeERr, SwitchEnergyDataKind, SwitchEnergyDataOf);
  }

  /** The records of a diode's e_rr list are those of its entries that
      validate True, in list order. */
  lemma DiodeRecoveryKeepsValidEntries(diodeArgs: Value, fosterArgs: Value)
    requires DiodeOf(diodeArgs, fosterArgs).Ok?
    requires diodeArgs.VDict? && Get(diodeArgs.d, "e_rr").VList?
    ensures DiodeOf(diodeArgs, fosterArgs).value.e_rr ==
              MapMake(ValidDicts(Get(diodeArgs.d, "e_rr").items, SwitchEnergyDataKind), SwitchEnergyDataOf)
  {
    RecordsOfKeepsValid(Get(diodeArgs.d, "e_rr").items, DiodeERr, SwitchEnergyDataKind, SwitchEnergyDataOf);
  }

  /** A 'single' energy dataset must name 'v_g' to pass validation, yet the
      record reads its gate voltage from 'v_switch': a valid dataset without
      'v_switch' loses its gate voltage. */
  lemma GateVoltageNotKept()
    ensures var d := map["dataset_type" := VStr("single"), "t_j" := VNum(25.0), "v_supply" := VNum(600.0),
                         "v_g" := VNum(15.0), "e_x" := VNum(1.2), "r_g" := VNum(2.5), "i_x" := VNum(50.0)];
      && IsValidDict(VDict(d), SwitchEnergyDataKind, []) == Ok(true)
      && SwitchEnergyDataOf(d).v_g == VNone
  {
    var d := map["dataset_type" := VStr("single"), "t_j" := VNum(25.0), "v_supply" := VNum(600.0),
                 "v_g" := VNum(15.0), "e_x" := VNum(1.2), "r_g" := VNum(2.5), "i_x" := VNum(50.0)];
    assert "v_switch" !in d;
    assert d.Keys >= {"t_j", "v_supply", "v_g", "e_x", "r_g", "i_x"};
  }

  /** A channel record depends on 't_j' and 'v_i_data' of its arguments and
      on nothing else. */
  lemma ChannelDataKeepsTwoKeys(a: map<string, Value>, b: map<string, Value>)
    ensures ChannelDataOf(a) == ChannelDataOf(b) <==>
              Get(a, "t_j") == Get(b, "t_j") && Get(a, "v_i_data") == Get(b, "v_i_data")
  {
  }

  /** An energy record takes its gate voltage from 'v_switch', so the value
      under 'v_g' never reaches the record. */
  lemma EnergyRecordIgnoresGateVoltageKey(d: map<string, Value>, x: Value)
    ensures SwitchEnergyDataOf(d).v_g == Get(d, "v_switch")
    ensures SwitchEnergyDataOf(d["v_g" := x]) == SwitchEnergyDataOf(d)
  {
  }

  method NewSwitch(switchArgs: Value, fosterArgs: Value) returns (r: Result<Switch>)
    ensures r == SwitchOf(switchArgs, fosterArgs)
  {
    var thermal :- FosterThermalModelOf(fosterArgs);
    var valid :- IsValidDict(switchArgs, SwitchKind, []);
    if !valid {
      return Ok(EmptySwitch(thermal));
    }
    var d := switchArgs.d;
    var c_oss, c_iss, c_rss := Get(d, "c_oss"), Get(d, "c_iss"), Get(d, "c_rss");
    var comment, manufacturer, technology := Get(d, "comment"), Get(d, "manufacturer"), Get(d, "technology");
    var channel :- CollectRecords(Get(d, "channel"), SwitchChannel, ChannelDataKind, ChannelDataOf);
    var eOn :- CollectRecords(Get(d, "e_on"), SwitchEOn, SwitchEnergyDataKind, SwitchEnergyDataOf);
    var eOff :- CollectRecords(Get(d, "e_off"), SwitchEOff, SwitchEnergyDataKind, SwitchEnergyDataOf);
    return Ok(Switch(thermal, c_oss, c_iss, c_rss, comment, manufacturer, technology, channel, eOn, eOff));
  }

  method NewDiode(diodeArgs: Value, fosterArgs: Value) returns (r: Result<Diode>)
    ensures r == DiodeOf(diodeArgs, fosterArgs)
  {
    var thermal :- FosterThermalModelOf(fosterArgs);
    var valid :- IsValidDict(diodeArgs, DiodeKind, []);
    if !valid {
      return Ok(EmptyDiode(thermal));
    }
    var d := diodeArgs.d;
    var comment, manufacturer, technology := Get(d, "comment"), Get(d, "manufacturer"), Get(d, "technology");
    var channel :- CollectRecords(Get(d, "channel"), DiodeChannel, ChannelDataKind, ChannelDataOf);
    var eRr :- CollectRecords(Get(d, "e_rr"), DiodeERr, SwitchEnergyDataKind, SwitchEnergyDataOf);
    return Ok(Diode(thermal, comment, manufacturer, technology, channel, eRr));
  }

  method NewTransistor(transistorArgs: Value, metadataArgs: Value, fosterArgs: Value,
                       switchArgs: Value, diodeArgs: Value, housingTypes: seq<string>) returns (r: Result<Transistor>)
    ensures r == TransistorOf(transistorArgs, metadataArgs, fosterArgs, switchArgs, diodeArgs, housingTypes)
  {
    var tValid := IsValidDict(transistorArgs, TransistorKind, housingTypes);
    if tValid != Ok(true) {
      return if tValid.Err? then Err(tValid.error) else Err(TypeErr(TransistorArgsEmpty));
    }
    var mValid := IsValidDict(metadataArgs, MetadataKind, housingTypes);
    if mValid != Ok(true) {
      return if mValid.Err? then Err(mValid.error) else Err(TypeErr(MetadataArgsEmpty));
    }
    assert TransistorOf(transistorArgs, metadataArgs, fosterArgs, switchArgs, diodeArgs, housingTypes) ==
             TransistorFrom(transistorArgs.d, MetadataOf(metadataArgs, housingTypes),
                            DiodeOf(diodeArgs, fosterArgs), SwitchOf(switchArgs, fosterArgs));
    r := AssembleTransistor(transistorArgs.d, metadataArgs, fosterArgs, switchArgs, diodeArgs, housingTypes);
  }

  /** Builds the parts in the order of `Transistor.__init__` and stops at the
      first one that raises. */
  method AssembleTransistor(t: map<string, Value>, metadataArgs: Value, fosterArgs: Value,
                            switchArgs: Value, diodeArgs: Value, housingTypes: seq<string>) returns (r: Result<Transistor>)
    ensures r == TransistorFrom(t, MetadataOf(metadataArgs, housingTypes),
                                DiodeOf(diodeArgs, fosterArgs), SwitchOf(switchArgs, fosterArgs))
  {
    var meta := MetadataOf(metadataArgs, housingTypes);
    if meta.Err? {
      return Err(meta.error);
    }
    var diode := NewDiode(diodeArgs, fosterArgs);
    if diode.Err? {
      return Err(diode.error);
    }
    var switch := NewSwitch(switchArgs, fosterArgs);
    r := TransistorFrom(t, meta, diode, switch);
  }
}
