# Transistor database core in Dafny

This project models the core of the transistor database, a Python library that
stores datasheet values of power transistors (MOSFETs and IGBTs).

- **Records and their validation** (`transistorDatabase/databaseClasses.py`).
  - `Transistor.isvalid_dict` checks an argument dictionary for one record kind. It returns `False` for None or an empty dictionary, and raises `KeyError`, `ValueError` or `TypeError` otherwise.
  - The nested classes `Metadata`, `FosterThermalModel`, `Switch`, `Diode`, `ChannelData` and `SwitchEnergyData` are built once from such dictionaries.
  - `Switch` and `Diode` collect their `channel`, `e_on`, `e_off` and `e_rr` lists. Each field is either one dictionary or a list of them. Entries that are None or empty are skipped. A `KeyError` from list element k is meant to be re-raised with index k. The handler finds k again with `dict_list.index(dataset)`, and that lookup can itself raise `ValueError` (see Findings). The model records the intended index.
  - A housing type is compared after removing everything but `[A-Za-z0-9]` and lower-casing. The stored value is the matching entry of the reference list.
- **The database manager** (`transistordatabase/database_manager.py`).
  - `convert_dict_to_transistor_object` takes a transistor dictionary read back from JSON or MongoDB. In place, it turns a fixed set of nested curve lists into arrays. Energy records are converted by their own `dataset_type`.
  - The `DatabaseManager` operation mode can be set once and must be set before use.
  - The MongoDB branch of `save_transistor` decides between keeping, replacing and copying a document.
  - `print_tdb` normalises its `filters` argument.

Python values are the datatype `Values.Value`: None, bool, number, string, list, dictionary, and numpy array as a matrix of rows. A raised exception is the `Err` case of `Values.Result`. Its `Error` records the exception class and the reason. The manager's own exceptions share the constructor `Raised`, and their reason names the class: a plain `Exception`, or an AttributeError for `NoCollection`.

The modules are:

- `Values`: values, errors, `d.get`, `x[key]`, `range(len(x))`, `list.index`, `np.array`.
- `Housing`: housing-type normalisation and lookup.
- `Validation`: `isvalid_dict`.
- `RecordLists`: the list-building loop shared by `Switch` and `Diode`.
- `Records`: the record values and the constructors.
- `Conversion`: the converter.
- `Manager`: the `DatabaseManager` class.

`Switch.__init__`, `Diode.__init__`, `Transistor.__init__` and the converter work step by step in the source. In the model each is a `method` whose `ensures` ties its result to a specification function, and the properties are proved about those functions. `Metadata.__init__`, `FosterThermalModel.__init__`, `ChannelData.__init__` and `SwitchEnergyData.__init__` only copy values out of a dictionary, so each is a function.

How the source works is modelled as written, including these quirks:

- The `Transistor` and `Metadata` key checks use the proper-subset test `keys() < check_keys`. So a dictionary that lacks a mandatory key passes when it also has a key outside the mandatory set (`Validation.TransistorSubsetQuirk`).
- `SwitchEnergyData.v_g` is read from `'v_switch'`, although validation requires `'v_g'` (`Records.GateVoltageNotKept`).
- `Transistor.r_th_switch_cs` is read from `'r_th_switch'`.
- `i_cont` is checked but never stored.
- `Metadata.technology` is read from `'meta_type'` and `last_modified` from `'ast_modified'`.
- `ChannelData` keeps only `t_j` and `v_i_data`.
- `set_operation_mode_mongodb` sets the mode before it rejects a collection name other than "local". The manager is then stuck: it has a mode but no collection (`Manager.RejectedCollectionBlocksManager`).

## Model

| member | source | states |
|---|---|---|
| Values.Indexable | transistordatabase/database_manager.py:278-279 | `for i in range(len(x)): x[i]` visits a list's elements; an empty dict or string is visited as empty; a non-empty dict raises KeyError on `x[0]`; anything else raises TypeError |
| Values.IndexOf | transistorDatabase/databaseClasses.py:313 | `dict_list.index(dataset)` is the position of the first element equal to the dataset |
| Values.IndexOfUnrepeated | transistorDatabase/databaseClasses.py:313 | when no earlier element equals element k, `index` reports k |
| Values.ToArray | transistordatabase/database_manager.py:279 | `np.array` leaves an array as it is and turns a list of number rows of one length into the array of those rows; other shapes, ragged lists included, are left unchanged |
| Values.RaggedRowsUnchanged | transistordatabase/database_manager.py:279 | a list of rows of lengths 1 and 2 is not a matrix and is left as it is |
| Values.ToArrayIdempotent | transistordatabase/database_manager.py:279 | converting an array again changes nothing |
| Values.Truth | transistordatabase/database_manager.py:206 | Python's `bool(x)`: containers are true iff non-empty; an array with more than one entry raises ValueError and is the only value that does |
| Values.SingleEntryTruth | transistordatabase/database_manager.py:206 | an array with a single entry is false exactly when that entry is zero, whatever rows of no entries surround it |
| Values.ItemEq | transistorDatabase/databaseClasses.py:313 | comparing two dictionary values raises ValueError exactly when an array with more than one entry takes part; otherwise it answers whether they are equal |
| Values.PyEq | transistorDatabase/databaseClasses.py:313 | `a == b` as `list.index` evaluates it: dictionaries of different sizes are unequal without comparing values; any error is the ValueError of an array comparison |
| Values.PyEqTrueMeansEqual | transistorDatabase/databaseClasses.py:313 | when the key order lists every key, a comparison that answers True compares equal values |
| Values.PyIndexOf | transistorDatabase/databaseClasses.py:313 | `xs.index(xs[k])` as Python evaluates it is at most k, or the ValueError of a comparison |
| Values.PyIndexOfUnrepeated | transistorDatabase/databaseClasses.py:313 | when every comparison with an earlier element answers False, `index` gives k |
| Housing.Normalize | transistorDatabase/databaseClasses.py:161-163 | the normal form has only lower-case letters and digits and is no longer than the input |
| Housing.NormalizeFixed | transistorDatabase/databaseClasses.py:161-163 | a string of lower-case letters and digits is its own normal form |
| Housing.NormalizeIdempotent | transistorDatabase/databaseClasses.py:161-163 | normalising twice is normalising once |
| Housing.NormalizeConcat | transistorDatabase/databaseClasses.py:161-163 | normalisation works character by character: it distributes over concatenation |
| Housing.SpellingsOfTo247 | transistorDatabase/databaseClasses.py:161-163 | "TO-247", "TO 247" and "to247" have the same normal form |
| Housing.NormalizeAll | transistorDatabase/databaseClasses.py:161 | the normalised reference list matches the reference list entry by entry |
| Housing.KnownIffSomeEntryMatches | transistorDatabase/databaseClasses.py:161-165 | a housing type is accepted exactly when its normal form equals the normal form of some reference entry |
| Housing.CanonicalHousingType | transistorDatabase/databaseClasses.py:220-225 | the stored housing type is the reference entry at the first index whose normal form matches, so it has the input's normal form |
| Housing.CanonicalIsStable | transistorDatabase/databaseClasses.py:220-225 | spellings with the same normal form store the same entry, and the stored entry maps to itself |
| Validation.EnergyKeysFor | transistorDatabase/databaseClasses.py:120-129 | only 'single', 'graph_r_e' and 'graph_i_e' have a required key set, and each one contains t_j, v_supply and v_g |
| Validation.IsValidDict | transistorDatabase/databaseClasses.py:101-108 | `False` exactly for None or an empty dict; TypeError for anything else that is not a dict; `True` only for a non-empty dict; no KeyError carries an index |
| Validation.ChannelDataRule | transistorDatabase/databaseClasses.py:109-117 | a channel dict is valid iff its keys include t_j and v_i_data, otherwise KeyError |
| Validation.SwitchEnergyDataRule | transistorDatabase/databaseClasses.py:118-139 | a missing dataset_type raises KeyError first; an unknown type raises ValueError; otherwise valid iff the keys include that type's set, else KeyError |
| Validation.EnergyKeysExactlyRequired | transistorDatabase/databaseClasses.py:120-135 | a dict with exactly a type's required keys is valid, and dropping any one of them raises KeyError |
| Validation.TransistorRule | transistorDatabase/databaseClasses.py:141-149 | KeyError when the key set is a proper subset of the five mandatory keys; otherwise ValueError unless transistor_type is MOSFET or IGBT; otherwise valid |
| Validation.TransistorSubsetQuirk | transistorDatabase/databaseClasses.py:142-148 | a dict without v_max, i_max and i_cont but with one extra key passes the key check |
| Validation.MetadataRule | transistorDatabase/databaseClasses.py:150-167 | KeyError on a proper subset of the mandatory keys; TypeError when housing_type is not a string; otherwise valid iff the housing type is known, else ValueError |
| Validation.OptionalKindsAcceptAnyDict | transistorDatabase/databaseClasses.py:169-176 | every non-empty dict is a valid Switch, Diode and FosterThermalModel |
| Validation.SiCMosfetTemplateRejected | transistorDatabase/databaseClasses.py:146-147 | a transistor_type of 'SiC-MOSFET' raises ValueError |
| RecordLists.AtIndex | transistorDatabase/databaseClasses.py:309-315 | a KeyError is re-raised carrying the list and the index; other errors pass through unchanged |
| RecordLists.ValidDicts | transistorDatabase/databaseClasses.py:304-307 | the kept entries are at most as many as the list |
| RecordLists.ValidDictsSnoc | transistorDatabase/databaseClasses.py:304-307 | appending an element keeps it exactly when it validates `True` |
| RecordLists.RecordsOf | transistorDatabase/databaseClasses.py:304-315 | the loop yields at most one record per element; an error is the re-raised error of some element |
| RecordLists.FieldRecords | transistorDatabase/databaseClasses.py:300-318 | a list field completes iff no element raises; a bare value completes iff it validates, gives at most one record, and raises its error without an index |
| RecordLists.AtIndexAsWritten | transistorDatabase/databaseClasses.py:309-315 | the handler as written: errors other than KeyError pass unchanged; a KeyError becomes an indexed KeyError or the ValueError of the index lookup |
| RecordLists.HandlerIndexWithoutClash | transistorDatabase/databaseClasses.py:309-315 | when no comparison in the lookup raises, the handler as written reports the failing element's own index, as `AtIndex` does |
| RecordLists.IndexLookupCanRaise | transistorDatabase/databaseClasses.py:304-315 | a two-element channel list whose second element lacks t_j raises the lookup's ValueError instead of the indexed KeyError the model gives |
| RecordLists.RecordsOfKeepsValid | transistorDatabase/databaseClasses.py:304-315 | the loop completes iff every element validates without error; the records are then built from the in-order subsequence of elements that validate `True` |
| RecordLists.RecordsOfErrPersists | transistorDatabase/databaseClasses.py:304-315 | once a prefix raises, the whole list raises the same error |
| RecordLists.RecordsOfFirstError | transistorDatabase/databaseClasses.py:304-315 | the first failing element k decides the error: a KeyError gains index k (the intended index; see Findings); ValueError and TypeError pass unchanged |
| RecordLists.IndexOfFirstFailure | transistorDatabase/databaseClasses.py:313 | the first position holding a value equal to the first failing element, which `dict_list.index(dataset)` is meant to find, is the element's own position |
| RecordLists.LoopStopsAt | transistorDatabase/databaseClasses.py:304-315 | when the loop reaches a failing element i, the intended position is i and the loop's error is the list's error |
| RecordLists.RecordsOfStep | transistorDatabase/databaseClasses.py:304-307 | one loop step: an error ends the loop, `True` appends a record, `False` skips the element |
| RecordLists.BareDictIsSingletonList | transistorDatabase/databaseClasses.py:316-318 | a bare value gives the same records as a one-element list holding it, unless it raises KeyError (no index then) |
| RecordLists.AbsentFieldIsEmpty | transistorDatabase/databaseClasses.py:300-318 | an absent, None, empty-dict or empty-list field gives no records |
| RecordLists.CollectRecords | transistorDatabase/databaseClasses.py:300-318 | the loop with try/except computes the records or the error of the field, with the intended index |
| Records.FosterThermalModelOf | transistorDatabase/databaseClasses.py:254-270 | TypeError exactly for a non-dict that is not None; None or empty gives all fields None; a dict gives each of the seven fields from its own key |
| Records.ChannelDataOf | transistorDatabase/databaseClasses.py:447-451 | t_j and v_i_data are read from their keys |
| Records.SwitchEnergyDataOf | transistorDatabase/databaseClasses.py:488-500 | each field is read from its own key, except v_g, which is read from 'v_switch' |
| Records.SwitchOf | transistorDatabase/databaseClasses.py:289-366 | the thermal model's error first, then the switch dict's; `False` gives an empty switch; otherwise built iff channel, e_on and e_off build, with those records and the scalar fields from their keys; the lists are built channel, e_on, e_off and the first that raises gives the error |
| Records.DiodeOf | transistorDatabase/databaseClasses.py:380-434 | the thermal model's error first, then the diode dict's; `False` gives an empty diode; otherwise built iff channel and e_rr build, with those records and the scalar fields from their keys; channel is built before e_rr and the first that raises gives the error |
| Records.TransistorOf | transistorDatabase/databaseClasses.py:70-91 | the transistor dict's error or TypeError comes first, then the metadata dict's; a built transistor holds the metadata `MetadataOf` builds |
| Records.TransistorFrom | transistorDatabase/databaseClasses.py:70-91 | built iff metadata, diode and switch are; the first error in that order wins; the scalar fields come from their keys, r_th_switch_cs from 'r_th_switch' |
| Records.MetadataOf | transistorDatabase/databaseClasses.py:200-229 | built iff validation returns `True`; `False` raises TypeError; the stored housing type is the first reference entry with the input's normal form; the 13 other fields come from their keys, `technology` from 'meta_type' and `last_modified` from 'ast_modified' |
| Records.ChannelDataKeepsTwoKeys | transistorDatabase/databaseClasses.py:447-451 | two channel records are equal iff their arguments agree on t_j and v_i_data |
| Records.EnergyRecordIgnoresGateVoltageKey | transistorDatabase/databaseClasses.py:488-500 | the record's v_g is the 'v_switch' argument, and the 'v_g' argument never reaches the record |
| Records.GateVoltageNotKept | transistorDatabase/databaseClasses.py:494 | a valid 'single' dataset without 'v_switch' is stored with v_g None |
| Records.EmptyPartsAreAllowed | transistorDatabase/databaseClasses.py:357-366 | None or empty switch, diode and thermal arguments build empty parts and never raise |
| Records.ThermalArgumentsMustBeADict | transistorDatabase/databaseClasses.py:290 | a thermal argument that is neither None nor a dict raises TypeError in both Switch and Diode |
| Records.MandatoryArguments | transistorDatabase/databaseClasses.py:79-89 | None or empty transistor or metadata arguments raise TypeError |
| Records.TransistorBuiltIff | transistorDatabase/databaseClasses.py:70-91 | a transistor is built iff both mandatory dicts validate `True` and the diode and the switch build |
| Records.BuiltTransistor | transistorDatabase/databaseClasses.py:70-91 | a built transistor has a MOSFET/IGBT type, r_th_switch_cs from 'r_th_switch', the first reference entry matching its housing type, technology from 'meta_type', last_modified from 'ast_modified', and the diode and switch its arguments describe |
| Records.SwitchChannelErrorIndexed | transistorDatabase/databaseClasses.py:300-315 | a channel list whose entry k is the first to fail makes the switch raise that entry's KeyError with index k, other errors unchanged |
| Records.DiodeRecoveryErrorIndexed | transistorDatabase/databaseClasses.py:408-427 | an e_rr list whose entry k is the first to fail makes the diode raise that entry's KeyError with index k, other errors unchanged |
| Records.SwitchChannelKeepsValidEntries | transistorDatabase/databaseClasses.py:300-315 | a switch channel list becomes the records of its entries that validate `True`, in order |
| Records.DiodeRecoveryKeepsValidEntries | transistorDatabase/databaseClasses.py:408-427 | a diode e_rr list becomes the records of its entries that validate `True`, in order |
| Records.NewSwitch | transistorDatabase/databaseClasses.py:289-366 | `Switch.__init__` builds the switch `SwitchOf` describes, or raises its error |
| Records.NewDiode | transistorDatabase/databaseClasses.py:380-434 | `Diode.__init__` builds the diode `DiodeOf` describes, or raises its error |
| Records.NewTransistor | transistorDatabase/databaseClasses.py:70-91 | `Transistor.__init__` checks, in source order, the transistor and metadata dicts, then the metadata, diode and switch |
| Records.AssembleTransistor | transistorDatabase/databaseClasses.py:85-91 | after both checks pass, the metadata, diode and switch are built in that order, and the first error wins |
| Conversion.Retag | transistordatabase/database_manager.py:303-304 | `v[key] = np.array(v[key])` succeeds iff v is a dict holding key; it changes only that key; otherwise it raises KeyError or TypeError |
| Conversion.ArrayEach | transistordatabase/database_manager.py:290-291 | every entry converted, the length kept |
| Conversion.RetagEntries | transistordatabase/database_manager.py:290-297 | the entries of one raw-measurement list are converted; other keys are unchanged; a non-list is left as it is |
| Conversion.ApplyStep | transistordatabase/database_manager.py:303-326 | a converted element is a dict with the same keys |
| Conversion.Acts | transistordatabase/database_manager.py:277-335 | the guard of a block: KeyError only for a missing mandatory key; a block that acts has its key present |
| Conversion.ApplyRule | transistordatabase/database_manager.py:277-350 | a block adds no key and changes only the value under its own key |
| Conversion.ApplyRules | transistordatabase/database_manager.py:277-350 | a section adds no key, and a key no block names keeps its value |
| Conversion.MapAll | transistordatabase/database_manager.py:303-304 | a converted list has the input's length and each element keeps its keys; an error is the error of some element |
| Conversion.Section | transistordatabase/database_manager.py:300-301 | `transformer_dict['switch']` is the dict stored there; KeyError when it is missing, TypeError when it is not a dict |
| Conversion.ConvertSections | transistordatabase/database_manager.py:277-350 | an error of the transistor-level blocks comes first, then a missing or non-dict 'switch'; when those blocks leave 'switch' and 'diode' alone, it succeeds iff the blocks and both sections convert, the keys are kept, every other field is the result of the transistor-level blocks, and the sections are the converted sections |
| Conversion.ConvertTransport | transistordatabase/database_manager.py:277-350 | succeeds iff the transistor-level blocks convert and 'switch' and 'diode' are dicts whose blocks convert; an error of the transistor-level blocks comes first, then a missing 'switch'; c_oss, c_iss, c_rss, graph_v_ecoss and raw_measurement_data are the results of their blocks; 'switch' and 'diode' hold the converted sections, which keep their keys; fields no block names are unchanged |
| Conversion.MapAllElementwise | transistordatabase/database_manager.py:303-304 | a list field converts iff every element does; the length is kept and element i is the conversion of element i |
| Conversion.MapAllFirstError | transistordatabase/database_manager.py:303-304 | an error from element i ends the loop unchanged, with no index |
| Conversion.EnergyStepByType | transistordatabase/database_manager.py:305-309 | an energy record converts only the curve its own dataset_type names; 'single' records are untouched |
| Conversion.ArrayEachIdempotent | transistordatabase/database_manager.py:290-291 | converting a converted list again changes nothing |
| Conversion.RetagIdempotent | transistordatabase/database_manager.py:303-304 | converting a field twice is converting it once |
| Conversion.RetagEntriesIdempotent | transistordatabase/database_manager.py:290-297 | converting a raw-measurement list twice is converting it once |
| Conversion.ApplyStepIdempotent | transistordatabase/database_manager.py:279-326 | converting an element twice is converting it once |
| Conversion.RawIdempotent | transistordatabase/database_manager.py:288-297 | a raw-measurement entry converted twice is the same as once |
| Conversion.OptionalFieldUntouched | transistordatabase/database_manager.py:277-350 | an optional field that is absent (or None, where the source checks) leaves the dict as it is, so it is never added |
| Conversion.ThermalNoneUntouched | transistordatabase/database_manager.py:301-302 | a None thermal curve leaves the section unchanged |
| Conversion.ThermalCurveConverted | transistordatabase/database_manager.py:301-302 | a thermal curve that is present is converted inside the thermal model |
| Conversion.EachRuleResult | transistordatabase/database_manager.py:300-335 | a list field named by one block ends up as the element-wise conversion of its original list |
| Conversion.SectionListConverted | transistordatabase/database_manager.py:300-335 | the same, element by element: the length is kept and element i is converted |
| Conversion.TopRulesLeaveSections | transistordatabase/database_manager.py:277-297 | no transistor-level block touches 'switch' or 'diode' |
| Conversion.SwitchRulesDistinct | transistordatabase/database_manager.py:300-335 | each switch field is converted by one block only |
| Conversion.DiodeRulesDistinct | transistordatabase/database_manager.py:338-350 | the diode blocks are the switch's thermal, channel and soa blocks plus e_rr, each field named once |
| Conversion.RequiredFieldPresent | transistordatabase/database_manager.py:303-320 | a section that converts has every mandatory list field |
| Conversion.EachRuleOutcome | transistordatabase/database_manager.py:303-335 | a list block raises KeyError for a missing required field; a field it acts on must be a list, an empty dict or an empty string (else the `range(len(...))` error); then it succeeds iff every element converts, and the first failing element's error is the block's |
| Conversion.ApplyRuleLocal | transistordatabase/database_manager.py:277-350 | a block reads only its own field: dicts that agree there give the same outcome and the same error |
| Conversion.ApplyRulesOkIffEach | transistordatabase/database_manager.py:277-350 | with distinct fields, a section converts iff each of its blocks succeeds on the section as given |
| Conversion.ApplyRulesFirstError | transistordatabase/database_manager.py:277-350 | with distinct fields, the first block that fails on the section as given decides the section's error |
| Conversion.MissingRequiredField | transistordatabase/database_manager.py:303-320 | a section without a required field (channel, e_on, e_off, e_rr) raises KeyError for it unless an earlier block failed |
| Conversion.TopRulesDistinct | transistordatabase/database_manager.py:277-297 | each transistor-level field is converted by one block only |
| Conversion.ConversionSucceedsIffEachBlock | transistordatabase/database_manager.py:277-350 | the whole conversion succeeds iff every transistor-level block, and every block of the switch and diode sections, which must be dicts, succeeds |
| Conversion.ChannelRecordsConverted | transistordatabase/database_manager.py:303-304 | every channel record of the switch (and of the diode, lines 341-342) has graph_v_i converted and nothing else; the list keeps its length |
| Conversion.EnergyRecordsConverted | transistordatabase/database_manager.py:305-326 | every record of e_on, e_on_meas, e_off, e_off_meas (and the diode's e_rr, lines 343-347) has a dataset_type and converts only the curve it names; other types are untouched; the length is kept |
| Conversion.ThermalCurveHandled | transistordatabase/database_manager.py:301-302 | the thermal model of the switch (and of the diode, lines 339-340) is a dict with graph_t_rthjc; the curve is converted iff it is not None |
| Conversion.ConvertEntriesInPlace | transistordatabase/database_manager.py:290-291 | the in-place `for u` loop computes `ArrayEach` |
| Conversion.ConvertEntries | transistordatabase/database_manager.py:290-297 | one raw-measurement loop computes `RetagEntries` |
| Conversion.ConvertElement | transistordatabase/database_manager.py:279-326 | the loop body for one element computes `ApplyStep` |
| Conversion.ConvertList | transistordatabase/database_manager.py:303-304 | the in-place `for i` loop over a list field computes `MapAll` |
| Conversion.ConvertField | transistordatabase/database_manager.py:277-350 | one block computes `ApplyRule` |
| Conversion.ConvertSection | transistordatabase/database_manager.py:300-335 | the blocks of a section, run in order, compute `ApplyRules` |
| Conversion.ConvertDictToTransistorObject | transistordatabase/database_manager.py:261-350 | the converter computes `ConvertTransport` |
| Manager.SetJson | transistordatabase/database_manager.py:41-48 | raises iff a mode is set, leaving the state unchanged; otherwise the mode is JSON and the folder is recorded |
| Manager.SetMongodb | transistordatabase/database_manager.py:57-64 | raises when a mode is set; otherwise the mode becomes MongoDB, and the collection is connected only for "local" (any other name raises) |
| Manager.Guard | transistordatabase/database_manager.py:76-77 | save, delete (124-125), load (149-150) and list (172-173) raise iff no mode is set |
| Manager.FindId | transistordatabase/database_manager.py:102 | `find_one({"_id": id})` finds the first document with that id, or none exists |
| Manager.MongoSave | transistordatabase/database_manager.py:101-115 | a save adds at most one document and removes none; it raises only when a copy is asked for and the document lacks '_id' or 'name', and then it raises KeyError |
| Manager.Save | transistordatabase/database_manager.py:76-115 | the mode and folder never change; a failed save changes nothing; no mode raises, a mode without a connected collection raises; a successful save grows the collection by at most one |
| Manager.FiltersOf | transistordatabase/database_manager.py:206-216 | the filters always include "name"; the only errors are the TypeError for a non-list, non-string argument and the ValueError of the truth test |
| Manager.ModeSetOnlyOnce | transistordatabase/database_manager.py:41-59 | over any sequence of setter calls at most one succeeds, none once a mode is set, and afterwards a mode is set |
| Manager.RejectedCollectionBlocksManager | transistordatabase/database_manager.py:57-64 | after a rejected collection name, no setter succeeds and a save raises |
| Manager.NothingBeforeMode | transistordatabase/database_manager.py:76-77 | a fresh manager refuses to save |
| Manager.MongoSaveRules | transistordatabase/database_manager.py:101-115 | a new id inserts; an existing id with overwrite None keeps the store; True replaces the match; False inserts a copy without '_id' named `get_copy_transistor_name(name)`, or raises KeyError |
| Manager.MongoSaveKeepsDocuments | transistordatabase/database_manager.py:101-115 | a save loses no document except the one it replaces, and adds at most one |
| Manager.FindIdIsFirst | transistordatabase/database_manager.py:102-109 | the document `find_one` and `replace_one` use is the first that carries the id |
| Manager.SavedDocumentIsFound | transistordatabase/database_manager.py:101-115 | a document saved under its id is found afterwards, and saving it again without overwrite changes nothing |
| Manager.OverwriteIdempotent | transistordatabase/database_manager.py:108-109 | overwriting twice with the same document is overwriting once |
| Manager.WithName | transistordatabase/database_manager.py:215-216 | "name" is in the result; the list is kept when "name" is already there, otherwise "name" is appended |
| Manager.FiltersAccepted | transistordatabase/database_manager.py:206-214 | the filters are accepted iff they test false, or are a list or a string; a false argument gives ["name"]; an array with more than one entry raises ValueError; a string s gives [s] with "name" added |
| Manager.FiltersKeepOrderAndAddNameOnce | transistordatabase/database_manager.py:215-216 | the filters keep their order, "name" is among them, and "name" is appended at most once |
| Manager.FiltersIdempotent | transistordatabase/database_manager.py:206-216 | normalising normalised filters changes nothing |
| Manager.DatabaseManager.constructor | transistordatabase/database_manager.py:26-27 | a new manager has no mode |
| Manager.DatabaseManager.SetOperationModeJson | transistordatabase/database_manager.py:41-48 | updates the fields as `SetJson` says |
| Manager.DatabaseManager.SetOperationModeMongodb | transistordatabase/database_manager.py:57-64 | updates the fields as `SetMongodb` says |
| Manager.DatabaseManager.SaveTransistor | transistordatabase/database_manager.py:76-115 | the guard, then the store decision of `MongoSave`, applied to the collection field |
| Manager.DatabaseManager.NormalizeFilters | transistordatabase/database_manager.py:206-216 | the head of `print_tdb` computes `FiltersOf` |

## Left out

- Reading `housing_types.txt`: the reference list is the parameter `housingTypes`. The file is read at transistorDatabase/databaseClasses.py:158-159 and again at 217-218.
- The ZODB `persistent.Persistent` base class of `Transistor`.
- numpy: `np.array(x)` is modelled as re-tagging a list of number rows of one length as a matrix. One-dimensional lists and scalars are left as they are. No numeric operation is involved.
- Values.ToArray: a ragged list of number rows (rows of different lengths) is left as it is (`Values.RaggedRowsUnchanged`), whereas numpy 1.24 and later raise ValueError and older numpy builds an object array. The conversion therefore never raises for a ragged curve.
- The file and MongoDB I/O of `DatabaseManager` (`os`, `json` and `pymongo` calls), plus `load_transistor`, `delete_transistor`, `get_transistor_names_list`, `export_single_transistor_to_json`, `__del__` and `connect_local_tdb`. Of load, delete and list, only the mode check is modelled (`Manager.Guard`). The local collection is a parameter of `SetOperationModeMongodb`.
- Manager.DatabaseManager.SaveTransistor: the JSON branch (transistordatabase/database_manager.py:81-97) is not modelled, so the method requires that the mode is not JSON. That branch compares a bare name with `.json` file names (line 83) and opens the copy without a write mode or a file handle (line 94).
- Manager.MongoSave: MongoDB's generated `_id` for an inserted document is not modelled. A copy (or any inserted document that lacks `_id`) is stored without one, and `FindId` lets a missing `_id` match None, as a MongoDB query does. So a later save with id None finds such a document: with overwrite None it changes nothing, where MongoDB, having given the document a generated `_id`, would insert. The replacement document's `_id` is not checked against the matched one.
- Values.Truth: an empty numpy array tests false, as numpy before 2.2 has it (with a deprecation warning); numpy 2.2 raises there instead.
- The `Transistor(...)` call at transistordatabase/database_manager.py:352 and `convert_to_dict`: the module they live in is not part of this model, so no round trip through them is stated. `save_transistor`'s document is a parameter.
- Conversion.ConvertDictToTransistorObject: the source mutates the nested dictionaries in place and shares them between `transformer_dict`, `switch_args` and `diode_args`. The model returns new values instead. It makes the shared structure explicit: the `switch` and `diode` results are exactly the maps stored under 'switch' and 'diode'. It does not model the partial changes left behind when an error is raised halfway.
- Conversion.ConvertTransport: the input is a dictionary; a transport value that is not a dictionary is not modelled.
- Conversion.MapAllFirstError: errors raised inside a converted element carry no index, as in the source; their message text is not modelled.
- Manager.DatabaseManager.NormalizeFilters: the source appends "name" to the caller's list in place; the model returns the new list. Everything `print_tdb` does after the filters (the MongoDB query and printing) is left out.
- Values.ItemEq: numpy broadcasting is not modelled. An array with more than one entry makes any comparison raise `ValueError`. That covers the shape mismatches that numpy 1.25 and later reject. It does not cover a comparison with a string, which numpy answers element by element. An array with at most one entry is compared as a value, so `np.array([[1.0]]) == 1.0` counts as false. `True == 1` is also false in the model, as is any other comparison between equal values of different Python types.
- Values.PyEq: values are compared, never object identities. Only element k is matched by identity, in `PyIndexOf`. A list that holds the same dictionary object twice is not modelled. Nested dictionaries and lists are compared as values, without the ValueError their arrays could raise.
- RecordLists.RecordsOfFirstError: states the index the handler intends. It does not state the `ValueError` that `dict_list.index(dataset)` raises when it compares dictionaries holding arrays with more than one entry. `RecordLists.AtIndexAsWritten` models that lookup; see Findings.
- Records.SwitchChannelErrorIndexed: states the index the handler intends, as `RecordLists.RecordsOfFirstError` does, not the `ValueError` the lookup can raise.
- Records.DiodeRecoveryErrorIndexed: states the index the handler intends, as `RecordLists.RecordsOfFirstError` does, not the `ValueError` the lookup can raise.
- RecordLists.IndexOfFirstFailure: states where `dict_list.index(dataset)` is meant to land, using value equality. It does not state Python's comparison, which can raise; that is `Values.PyIndexOf`.
- RecordLists.LoopStopsAt: gives the intended index, not the lookup's possible `ValueError`.
- RecordLists.CollectRecords: computes the intended index, not the lookup's possible `ValueError`.
- RecordLists.RecordsOf: gives the intended index, not the lookup's possible `ValueError`.
- Values.IndexOf: uses value equality, not Python's `==`; `Values.PyEq` models the latter.
- Error messages are modelled as a reason datatype, not as text. The index prefix of a re-raised `KeyError` is the `ListIndex` carried by `KeyErr`.

## Findings

| source | as written | input that shows it | evidently intended | confidence | as-written member | corrected member |
|---|---|---|---|---|---|---|
| transistorDatabase/databaseClasses.py:313 | the `except KeyError` handler finds the failing element's position again with `dict_list.index(dataset)`. That lookup compares earlier elements with `==`, and a dictionary comparison that reaches two numpy arrays with more than one entry raises `ValueError`. The same lookup is at lines 333, 351, 401 and 421. | `channel = [{'v_i_data': A, 't_j': 25.0}, {'v_i_data': B, 't_k': 25.0}]` with distinct 2x2 arrays A and B: element 1 lacks 't_j'. | the `KeyError` re-raised with index 1, for example by taking the index from `enumerate` | not executed; high for the ValueError, which follows from numpy's truth test | RecordLists.IndexLookupCanRaise | RecordLists.IndexOfFirstFailure |
