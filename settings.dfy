/** The settings store's pure transforms: the default settings, the shape check and legacy
    migration applied to what `load_settings` read, and the effective per-mode blocks the
    orchestrators run with. File reads, writes and clock reads are parameters. */
module Settings {
  import opened Wrappers
  import opened Text
  import opened Json
  import Config

  /** The four collaboration modes, in the order the source lists them. */
  const ModeNames: seq<string> := ["council", "dxo", "sequential", "ensemble"]

  /** `[{"name": m} for m in COUNCIL_MODELS]`. */
  function DefaultModelList(): Json {
    JArr(seq(|Config.CouncilModels|, i requires 0 <= i < |Config.CouncilModels| =>
      JObj(map["name" := JStr(Config.CouncilModels[i])])))
  }

  /** `_default_mode_settings()`. */
  function DefaultModeSettings(): map<string, Json> {
    map[
      "council_models" := DefaultModelList(),
      "chairman_model" := JStr(Config.ChairmanModel),
      "title_model" := JStr(Config.TitleModel)
    ]
  }

  function DefaultModes(): map<string, Json> {
    map[
      "council" := JObj(DefaultModeSettings()),
      "dxo" := JObj(DefaultModeSettings()),
      "sequential" := JObj(DefaultModeSettings()),
      "ensemble" := JObj(DefaultModeSettings())
    ]
  }

  /** `default_settings()`; `now` is the timestamp `_now_iso()` would read. */
  function DefaultSettings(now: string): map<string, Json> {
    map[
      "modes" := JObj(DefaultModes()),
      "default_mode" := JStr("council"),
      "updated_at" := JStr(now)
    ]
  }

  /** The defaults cover exactly the four modes, each with the same block, and start in
      council mode. */
  lemma DefaultSettingsShape(now: string)
    ensures DefaultSettings(now)["modes"].JObj?
    ensures DefaultSettings(now)["modes"].fields.Keys == set m | m in ModeNames
    ensures forall m :: m in ModeNames ==> DefaultSettings(now)["modes"].fields[m] == JObj(DefaultModeSettings())
    ensures DefaultSettings(now)["default_mode"] == JStr("council")
  {
  }

  // ---------------------------------------------------------------------------------------
  // load_settings, after the file was read

  /** What reading and parsing one settings file produced. */
  datatype FileContent = Absent | Unparseable | Parsed(data: Json)

  /** The pre-modes file layout: no "modes" key, but one of the three top-level council keys. */
  predicate IsLegacyShape(data: map<string, Json>) {
    "modes" !in data
    && ("council_models" in data || "chairman_model" in data || "title_model" in data)
  }

  /** The council block a legacy file migrates to: its top-level keys, falsy values replaced
      by the defaults. */
  function LegacyCouncilBlock(data: map<string, Json>): map<string, Json> {
    map[
      "council_models" := Or(Get(data, "council_models"), DefaultModelList()),
      "chairman_model" := Or(Get(data, "chairman_model"), JStr(Config.ChairmanModel)),
      "title_model" := Or(Get(data, "title_model"), JStr(Config.TitleModel))
    ]
  }

  /** The migrated settings: the defaults with the council block built from the top-level
      keys. */
  function MigrateLegacyShape(data: map<string, Json>, now: string): map<string, Json> {
    DefaultSettings(now)["modes" := JObj(DefaultModes()["council" := JObj(LegacyCouncilBlock(data))])]
                        ["updated_at" := Or(Get(data, "updated_at"), JStr(now))]
  }

  /** `load_settings()` given what the primary and the legacy settings files hold. The legacy
      file is used only when the primary one is absent, and is returned unmigrated. */
  function LoadSettings(primary: FileContent, legacy: FileContent, now: string): map<string, Json> {
    match primary
    case Absent =>
      (match legacy
       case Parsed(JObj(data)) => data
       case _ => DefaultSettings(now))
    case Unparseable => DefaultSettings(now)
    case Parsed(data) =>
      if !data.JObj? then DefaultSettings(now)
      else if IsLegacyShape(data.fields) then MigrateLegacyShape(data.fields, now)
      else data.fields
  }

  /** Legacy migration keeps the four default modes and the default mode, and replaces only
      the council block. */
  lemma LegacyMigration(data: map<string, Json>, now: string)
    requires IsLegacyShape(data)
    ensures var r := LoadSettings(Parsed(JObj(data)), Absent, now);
      && r["default_mode"] == JStr("council")
      && r["modes"].JObj? && r["modes"].fields.Keys == set m | m in ModeNames
      && (forall m :: m in ModeNames[1..] ==> r["modes"].fields[m] == JObj(DefaultModeSettings()))
      && r["modes"].fields["council"] == JObj(LegacyCouncilBlock(data))
  {
    var modes := DefaultModes()["council" := JObj(LegacyCouncilBlock(data))];
    assert LoadSettings(Parsed(JObj(data)), Absent, now)["modes"] == JObj(modes);
    assert modes.Keys == set m | m in ModeNames;
  }

  /** The migrated council block has exactly the three block keys, keeps every truthy value
      the file gives them, and holds no falsy value. */
  lemma LegacyCouncilBlockKeeps(data: map<string, Json>)
    ensures LegacyCouncilBlock(data).Keys == {"council_models", "chairman_model", "title_model"}
    ensures forall k :: k in LegacyCouncilBlock(data) ==>
              Truthy(LegacyCouncilBlock(data)[k]) && (Truthy(Get(data, k)) ==> LegacyCouncilBlock(data)[k] == data[k])
  {
    assert Truthy(DefaultModelList()) by {
      assert |DefaultModelList().items| == 4;
    }
  }

  /** Content that is not a JSON object, or that cannot be read, yields the defaults. */
  lemma LoadNonObjectIsDefault(content: FileContent, legacy: FileContent, now: string)
    requires content.Unparseable? || (content.Parsed? && !content.data.JObj?)
    ensures LoadSettings(content, legacy, now) == DefaultSettings(now)
  {
  }

  // ---------------------------------------------------------------------------------------
  // _effective_mode_block

  /** One effective mode block: the model list and the resolved chairman and title models. */
  datatype Block = Block(councilModels: Json, chairmanModel: string, titleModel: string)

  /** An entry `_effective_mode_block` keeps: a dict whose `name` is a string that is not
      blank. */
  predicate IsModelEntry(item: Json) {
    item.JObj? && Get(item.fields, "name").JStr? && !IsBlank(Get(item.fields, "name").s)
  }

  /** The entry restricted to the keys `name` and `system_prompt`. */
  function Project(item: Json): Json
    requires item.JObj?
  {
    JObj(map k | k in item.fields && k in {"name", "system_prompt"} :: item.fields[k])
  }

  /** The projections of the entries kept from `items`, in their order. */
  function KeptEntries(items: seq<Json>): seq<Json> {
    if items == [] then []
    else
      var last := items[|items| - 1];
      KeptEntries(items[..|items| - 1]) + (if IsModelEntry(last) then [Project(last)] else [])
  }

  /** What `for item in council_models or []` keeps. A string yields its characters and an
      object its keys, all strings, so neither keeps anything; a truthy number or boolean is
      not iterable and raises. */
  function KeptModels(councilModels: Json): Result<seq<Json>> {
    match Or(councilModels, JArr([]))
    case JArr(items) => Ok(KeptEntries(items))
    case JStr(_) => Ok([])
    case JObj(_) => Ok([])
    case _ => Err("TypeError")
  }

  /** `mode_value or defaults_value or constant`, replaced by the constant unless it is a
      string that is not blank. */
  function ResolveName(modeValue: Json, defaultsValue: Json, constant: string): string {
    var v := Or(Or(modeValue, defaultsValue), JStr(constant));
    if v.JStr? && !IsBlank(v.s) then v.s else constant
  }

  /** `_effective_mode_block(mode_data, defaults)`; a `mode_data` that is not a dict has no
      `.get` and raises. */
  function EffectiveBlock(modeData: Json, defaults: map<string, Json>): Result<Block> {
    if !modeData.JObj? then Err("AttributeError")
    else
      match KeptModels(Get(modeData.fields, "council_models"))
      case Err(e) => Err(e)
      case Ok(kept) =>
        var models := if kept != [] then JArr(kept)
                      else Or(Get(defaults, "council_models"), DefaultModelList());
        Ok(Block(
          models,
          ResolveName(Get(modeData.fields, "chairman_model"), Get(defaults, "chairman_model"), Config.ChairmanModel),
          ResolveName(Get(modeData.fields, "title_model"), Get(defaults, "title_model"), Config.TitleModel)))
  }

  /** The keys of a dict, in some order: what iterating over it yields. */
  method ObjectKeys(fields: map<string, Json>) returns (keys: seq<Json>)
    ensures |keys| == |fields|
    ensures forall k :: k in keys ==> k.JStr? && k.s in fields
    ensures forall k :: k in fields ==> JStr(k) in keys
    ensures forall i, j :: 0 <= i < j < |keys| ==> keys[i] != keys[j]
  {
    keys := [];
    var rest := fields.Keys;
    while rest != {}
      invariant rest <= fields.Keys
      invariant |keys| + |rest| == |fields|
      invariant forall k :: k in keys ==> k.JStr? && k.s in fields
      invariant forall k :: k in fields.Keys - rest ==> JStr(k) in keys
      invariant forall k :: k in keys ==> k.s !in rest
      invariant forall i, j :: 0 <= i < j < |keys| ==> keys[i] != keys[j]
    {
      var k :| k in rest;
      keys := keys + [JStr(k)];
      rest := rest - {k};
    }
  }

  /** Strings are never kept, so a list of strings keeps nothing. */
  lemma KeptEntriesOfStrings(items: seq<Json>)
    requires forall x :: x in items ==> x.JStr?
    ensures KeptEntries(items) == []
  {
    if items != [] {
      var init := items[..|items| - 1];
      assert forall x :: x in init ==> x in items;
      assert items[|items| - 1] in items;
      KeptEntriesOfStrings(init);
    }
  }

  /** `_effective_mode_block`: filters and projects the configured models, falls back to the
      defaults' models when none survives, and resolves the chairman and title models. */
  method EffectiveModeBlock(modeData: Json, defaults: map<string, Json>) returns (r: Result<Block>)
    ensures r == EffectiveBlock(modeData, defaults)
  {
    if !modeData.JObj? {
      return Err("AttributeError");
    }
    var source := Or(Get(modeData.fields, "council_models"), JArr([]));
    var items: seq<Json>;
    match source {
      case JArr(xs) => items := xs;
      case JStr(s) => items := seq(|s|, i requires 0 <= i < |s| => JStr([s[i]]));
      case JObj(fields) => items := ObjectKeys(fields);
      case _ => return Err("TypeError");
    }
    var models := KeepEntries(items);
    if !source.JArr? {
      KeptEntriesOfStrings(items);
    }
    var modelList := if models != [] then JArr(models)
                     else Or(Get(defaults, "council_models"), DefaultModelList());
    var chairman := Or(Or(Get(modeData.fields, "chairman_model"), Get(defaults, "chairman_model")), JStr(Config.ChairmanModel));
    var chairmanModel := if chairman.JStr? && !IsBlank(chairman.s) then chairman.s else Config.ChairmanModel;
    var title := Or(Or(Get(modeData.fields, "title_model"), Get(defaults, "title_model")), JStr(Config.TitleModel));
    var titleModel := if title.JStr? && !IsBlank(title.s) then title.s else Config.TitleModel;
    r := Ok(Block(modelList, chairmanModel, titleModel));
  }

  /** The loop of `get_effective_mode_settings` that keeps the entries with a non-blank name. */
  method KeepEntries(items: seq<Json>) returns (models: seq<Json>)
    ensures models == KeptEntries(items)
  {
    models := [];
    for i := 0 to |items|
      invariant models == KeptEntries(items[..i])
    {
      var item := items[i];
      if item.JObj? && Get(item.fields, "name").JStr? && !IsBlank(Get(item.fields, "name").s) {
        models := models + [Project(item)];
      }
      assert items[..i + 1][..i] == items[..i];
    }
    assert items[..|items|] == items;
  }

  /** Kept entries are dicts with a non-blank string `name` and no key but `name` and
      `system_prompt`; no more come out than went in. */
  lemma {:induction false} KeptEntriesShape(items: seq<Json>)
    ensures |KeptEntries(items)| <= |items|
    ensures forall y :: y in KeptEntries(items) ==>
              && y.JObj? && y.fields.Keys <= {"name", "system_prompt"}
              && "name" in y.fields && y.fields["name"].JStr? && !IsBlank(y.fields["name"].s)
  {
    if items != [] {
      KeptEntriesShape(items[..|items| - 1]);
    }
  }

  /** Filtering keeps the input order: the entries kept from `a + b` are those kept from `a`
      followed by those kept from `b`. */
  lemma {:induction false} KeptEntriesAppend(a: seq<Json>, b: seq<Json>)
    ensures KeptEntries(a + b) == KeptEntries(a) + KeptEntries(b)
    decreases |b|
  {
    if b != [] {
      var b' := b[..|b| - 1];
      assert (a + b)[..|a + b| - 1] == a + b';
      KeptEntriesAppend(a, b');
    } else {
      assert a + b == a;
    }
  }

  /** An entry survives exactly when it is a model entry: nothing is kept from a list with
      no model entry, and a list of model entries is kept whole, projected. */
  lemma {:induction false} KeptEntriesEmptyIff(items: seq<Json>)
    ensures KeptEntries(items) == [] <==> forall x :: x in items ==> !IsModelEntry(x)
  {
    if items != [] {
      var init := items[..|items| - 1];
      KeptEntriesEmptyIff(init);
      forall x | x in items ensures x in init || x == items[|items| - 1] {
        var k :| 0 <= k < |items| && items[k] == x;
        if k < |items| - 1 { assert init[k] == x; }
      }
    }
  }

  /** The chairman and title models resolve in the order mode value, defaults value,
      constant; a mode value that is truthy but not a usable name goes straight to the
      constant, skipping the defaults. The result is never blank. */
  lemma ResolveNameOrder(modeValue: Json, defaultsValue: Json, constant: string)
    requires !IsBlank(constant)
    ensures !IsBlank(ResolveName(modeValue, defaultsValue, constant))
    ensures modeValue.JStr? && !IsBlank(modeValue.s) ==> ResolveName(modeValue, defaultsValue, constant) == modeValue.s
    ensures Truthy(modeValue) && !(modeValue.JStr? && !IsBlank(modeValue.s)) ==> ResolveName(modeValue, defaultsValue, constant) == constant
    ensures !Truthy(modeValue) && defaultsValue.JStr? && !IsBlank(defaultsValue.s) ==> ResolveName(modeValue, defaultsValue, constant) == defaultsValue.s
    ensures !Truthy(modeValue) && !(defaultsValue.JStr? && !IsBlank(defaultsValue.s)) ==> ResolveName(modeValue, defaultsValue, constant) == constant
  {
    if modeValue.JStr? && !IsBlank(modeValue.s) {
      assert modeValue.s != "";
    }
    if defaultsValue.JStr? && !IsBlank(defaultsValue.s) {
      assert defaultsValue.s != "";
    }
  }

  /** The configured chairman and title constants are not blank. */
  lemma ConstantsNotBlank()
    ensures !IsBlank(Config.ChairmanModel) && !IsBlank(Config.TitleModel)
  {
    assert Config.ChairmanModel[0] == 'g' && 'g' !in Whitespace;
    assert Config.TitleModel[0] == 'g';
  }

  /** Every effective block has a non-blank chairman and title model, keeps the configured
      models whenever at least one of them is a model entry, and otherwise falls back to the
      defaults' models, or the built-in list when those are falsy. */
  lemma EffectiveBlockProperties(modeData: Json, defaults: map<string, Json>)
    requires EffectiveBlock(modeData, defaults).Ok?
    ensures var b := EffectiveBlock(modeData, defaults).value;
      && !IsBlank(b.chairmanModel) && !IsBlank(b.titleModel)
      && (Get(modeData.fields, "council_models").JArr? && KeptEntries(Get(modeData.fields, "council_models").items) != [] ==>
            b.councilModels == JArr(KeptEntries(Get(modeData.fields, "council_models").items)))
      && (KeptModels(Get(modeData.fields, "council_models")) == Ok([]) ==>
            b.councilModels == Or(Get(defaults, "council_models"), DefaultModelList()))
  {
    ConstantsNotBlank();
    ResolveNameOrder(Get(modeData.fields, "chairman_model"), Get(defaults, "chairman_model"), Config.ChairmanModel);
    ResolveNameOrder(Get(modeData.fields, "title_model"), Get(defaults, "title_model"), Config.TitleModel);
  }

  // ---------------------------------------------------------------------------------------
  // get_all_settings_effective, get_effective_settings

  /** The effective settings of all modes, with the council block mirrored at top level for
      older clients. */
  datatype AllEffective = AllEffective(
    modes: map<string, Block>,
    defaultMode: Json,
    updatedAt: Json,
    councilModels: Json,
    chairmanModel: string,
    titleModel: string)

  /** What every `get_all_settings_effective` result satisfies: exactly the four modes, each
      with a chairman and a title model that are not blank. */
  predicate WellFormedAll(a: AllEffective) {
    && a.modes.Keys == (set m | m in ModeNames)
    && forall m :: m in a.modes ==> !IsBlank(a.modes[m].chairmanModel) && !IsBlank(a.modes[m].titleModel)
  }

  /** `current.get("modes") or {}`, on which `.get` is then called: anything truthy but a dict
      raises. */
  function ModesOf(current: map<string, Json>): Result<map<string, Json>> {
    match Or(Get(current, "modes"), JObj(map[]))
    case JObj(m) => Ok(m)
    case _ => Err("AttributeError")
  }

  /** The block `get_all_settings_effective` computes for mode `m` from the stored modes. */
  function ModeBlockOf(modes: map<string, Json>, m: string): Result<Block> {
    EffectiveBlock(GetOr(modes, m, JObj(map[])), DefaultModeSettings())
  }

  /** `get_all_settings_effective()`, given what the settings files hold: the effective block
      of each of the four modes, in a loop, and the council block mirrored at top level. */
  method GetAllSettingsEffective(primary: FileContent, legacy: FileContent, now: string)
    returns (r: Result<AllEffective>)
    ensures var current := LoadSettings(primary, legacy, now);
      r.Ok? <==> ModesOf(current).Ok? && forall m :: m in ModeNames ==> ModeBlockOf(ModesOf(current).value, m).Ok?
    ensures r.Ok? ==> WellFormedAll(r.value)
    ensures r.Ok? ==> var current := LoadSettings(primary, legacy, now);
      && (forall m :: m in ModeNames ==> Ok(r.value.modes[m]) == ModeBlockOf(ModesOf(current).value, m))
      && r.value.defaultMode == Or(Get(current, "default_mode"), JStr("council"))
      && r.value.updatedAt == Or(Get(current, "updated_at"), JStr(now))
      && r.value.councilModels == r.value.modes["council"].councilModels
      && r.value.chairmanModel == r.value.modes["council"].chairmanModel
      && r.value.titleModel == r.value.modes["council"].titleModel
  {
    var current := LoadSettings(primary, legacy, now);
    var modesCurrent := ModesOf(current);
    if modesCurrent.Err? {
      return Err(modesCurrent.error);
    }
    var blocks := EffectiveModes(modesCurrent.value);
    if blocks.Err? {
      return Err(blocks.error);
    }
    var effective := blocks.value;
    var council := effective["council"];
    r := Ok(AllEffective(
      effective,
      Or(Or(Get(current, "default_mode"), JStr("council")), JStr("council")),
      Or(Get(current, "updated_at"), JStr(now)),
      council.councilModels, council.chairmanModel, council.titleModel));
  }

  /** The loop of `get_all_settings_effective` over the four modes: every mode's effective
      block, or the error of the first mode whose block raises. */
  method EffectiveModes(modes: map<string, Json>) returns (r: Result<map<string, Block>>)
    ensures r.Ok? <==> forall m :: m in ModeNames ==> ModeBlockOf(modes, m).Ok?
    ensures r.Ok? ==> r.value.Keys == set m | m in ModeNames
    ensures r.Ok? ==> forall m :: m in r.value ==> Ok(r.value[m]) == ModeBlockOf(modes, m)
    ensures r.Ok? ==> forall m :: m in r.value ==> !IsBlank(r.value[m].chairmanModel) && !IsBlank(r.value[m].titleModel)
  {
    var effective: map<string, Block> := map[];
    for i := 0 to |ModeNames|
      invariant effective.Keys == set m | m in ModeNames[..i]
      invariant forall m :: m in effective ==> Ok(effective[m]) == ModeBlockOf(modes, m)
      invariant forall m :: m in effective ==> !IsBlank(effective[m].chairmanModel) && !IsBlank(effective[m].titleModel)
      invariant forall m :: m in ModeNames[..i] ==> ModeBlockOf(modes, m).Ok?
    {
      var key := ModeNames[i];
      var block := EffectiveModeBlock(GetOr(modes, key, JObj(map[])), DefaultModeSettings());
      if block.Err? {
        assert key in ModeNames && !ModeBlockOf(modes, key).Ok?;
        return Err(block.error);
      }
      EffectiveBlockProperties(GetOr(modes, key, JObj(map[])), DefaultModeSettings());
      effective := effective[key := block.value];
      assert ModeNames[..i + 1] == ModeNames[..i] + [key];
    }
    assert ModeNames[..|ModeNames|] == ModeNames;
    r := Ok(effective);
  }

  /** `get_effective_settings(mode)`: the requested mode's block when it is one of the four,
      otherwise the `default_mode` block; a `default_mode` that is not one of the four raises,
      a list or dict because it cannot be a dict key, anything else because it is missing. */
  function GetEffectiveSettings(all: Result<AllEffective>, mode: string): (r: Result<Block>)
    ensures all.Ok? && WellFormedAll(all.value) && r.Ok? ==>
              && r.value in all.value.modes.Values
              && !IsBlank(r.value.chairmanModel) && !IsBlank(r.value.titleModel)
  {
    match all
    case Err(e) => Err(e)
    case Ok(a) =>
      if mode in a.modes then Ok(a.modes[mode])
      else
        var fallback := Or(a.defaultMode, JStr("council"));
        if fallback.JArr? || fallback.JObj? then Err("TypeError")
        else if fallback.JStr? && fallback.s in a.modes then Ok(a.modes[fallback.s])
        else Err("KeyError")
  }

  /** Which block `get_effective_settings` returns, for effective settings of the four modes. */
  lemma EffectiveSettingsChoice(a: AllEffective, mode: string)
    requires WellFormedAll(a)
    ensures mode in ModeNames ==> GetEffectiveSettings(Ok(a), mode) == Ok(a.modes[mode])
    ensures mode !in ModeNames && a.defaultMode.JStr? && a.defaultMode.s in ModeNames ==>
              GetEffectiveSettings(Ok(a), mode) == Ok(a.modes[a.defaultMode.s])
    ensures mode !in ModeNames && !Truthy(a.defaultMode) ==> GetEffectiveSettings(Ok(a), mode) == Ok(a.modes["council"])
    ensures mode !in ModeNames && Truthy(a.defaultMode) && (a.defaultMode.JArr? || a.defaultMode.JObj?) ==>
              GetEffectiveSettings(Ok(a), mode) == Err("TypeError")
    ensures mode !in ModeNames && Truthy(a.defaultMode) && !(a.defaultMode.JArr? || a.defaultMode.JObj?) &&
            !(a.defaultMode.JStr? && a.defaultMode.s in ModeNames) ==>
              GetEffectiveSettings(Ok(a), mode) == Err("KeyError")
  {
    if a.defaultMode.JStr? && a.defaultMode.s in ModeNames {
      assert a.defaultMode.s != "";
    }
  }
}
