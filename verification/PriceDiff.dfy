/** The price difference builder of controller/ratio_sync.go (buildDifferences): several passes over
    nested maps, against a short definition that mentions neither passes nor order.

    Prices are reals. Go's nil is Null; a value of a JSON document is one of the other cases. */
module PriceDiff {
  import opened Base

  datatype Val = Null | Float(f: real) | Int(n: int) | Text(s: string) | Flag(b: bool)

  const Epsilon: real := 0.000000001
  const Same := Text("same")

  /** model -> value, and field -> model -> value. */
  type Table = map<string, Val>
  type Data = map<string, Table>

  const Fields: seq<string> := [
    "model_ratio", "completion_ratio", "cache_ratio", "create_cache_ratio", "image_ratio", "audio_ratio",
    "audio_completion_ratio", "model_price", "billing_mode", "billing_expr"]

  const NumericFields: set<string> := {
    "model_ratio", "completion_ratio", "cache_ratio", "create_cache_ratio", "image_ratio", "audio_ratio",
    "audio_completion_ratio", "model_price"}

  // ----- values -----

  predicate NearlyEqual(a: real, b: real) { if a > b then a - b < Epsilon else b - a < Epsilon }

  predicate ValuesEqual(a: Val, b: Val) { if a.Float? && b.Float? then NearlyEqual(a.f, b.f) else a == b }

  function AsFloat(v: Val): Option<real> {
    match v
    case Float(f) => Some(f)
    case Int(n) => Some(n as real)
    case _ => None
  }

  function Normalise(field: string, v: Val): Val {
    if field in NumericFields && AsFloat(v).Some? then Float(AsFloat(v).value) else v
  }

  function TableOf(data: Data, field: string): Table { if field in data then data[field] else map[] }

  predicate Has(data: Data, field: string, model: string) { model in TableOf(data, field) }

  function Value(data: Data, field: string, model: string): Val {
    if Has(data, field, model) then Normalise(field, TableOf(data, field)[model]) else Null
  }

  /** What a channel shows for a price: "same", its own value, or nothing. */
  function Cell(local: Data, data: Data, field: string, model: string): Val {
    var l, u := Value(local, field, model), Value(data, field, model);
    if ValuesEqual(l, u) then Same else u
  }

  /** A channel that reports a model ratio of 37.5 with completion ratio 1 is not trusted for the model. */
  predicate Confident(data: Data, model: string) {
    var ratios, completions := TableOf(data, "model_ratio"), TableOf(data, "completion_ratio");
    !(model in ratios && model in completions &&
      var r, c := AsFloat(ratios[model]), AsFloat(completions[model]);
      r.Some? && c.Some? && NearlyEqual(r.value, 37.5) && NearlyEqual(c.value, 1.0))
  }

  // ----- the definition -----

  /** Successful channels by name. */
  type Channels = map<string, Data>

  datatype Item = Item(current: Val, upstreams: map<string, Val>, confidence: map<string, bool>)

  type Differences = map<string, map<string, Item>>

  /** The channel supplies a value here that the local side lacks or that is not equal to it. */
  predicate Differs(local: Data, data: Data, field: string, model: string) {
    var c := Cell(local, data, field, model);
    c != Null && c != Same
  }

  ghost predicate DiffersSomewhere(local: Data, data: Data) {
    exists field, model :: field in Fields && Differs(local, data, field, model)
  }

  /** The channel has a value for the price, unequal to the local one if there is one. */
  predicate Counts(local: Data, data: Data, field: string, model: string) {
    Has(data, field, model) &&
    (Value(local, field, model) != Null ==> !ValuesEqual(Value(local, field, model), Value(data, field, model)))
  }

  /** The price enters the first pass. */
  predicate Included(local: Data, ups: Channels, field: string, model: string) {
    exists name :: name in ups && Counts(local, ups[name], field, model)
  }

  /** The channels that differ somewhere. */
  ghost function Differing(local: Data, ups: Channels): Channels {
    map name | name in ups && DiffersSomewhere(local, ups[name]) :: ups[name]
  }

  /** Some of the channels shows more than "same" for the price. */
  ghost predicate NotAllSame(local: Data, ups: Channels, field: string, model: string) {
    exists name :: name in ups && Cell(local, ups[name], field, model) != Same
  }

  /** The price is in the result. */
  ghost predicate Listed(local: Data, ups: Channels, field: string, model: string) {
    field in Fields && Included(local, ups, field, model) && NotAllSame(local, Differing(local, ups), field, model)
  }

  function ForEach<V>(ups: Channels, f: Data -> V): map<string, V> { map name | name in ups :: f(ups[name]) }

  /** The given channels' view of a price. */
  function ItemOf(local: Data, ups: Channels, field: string, model: string): Item {
    Item(Value(local, field, model),
         ForEach(ups, data => Cell(local, data, field, model)),
         ForEach(ups, data => Confident(data, model)))
  }

  ghost predicate ListedAnywhere(local: Data, ups: Channels, model: string) {
    exists field :: Listed(local, ups, field, model)
  }

  /** The listed fields of a model, each seen by the channels that differ somewhere. */
  ghost predicate IsExpectedModel(items: map<string, Item>, local: Data, ups: Channels, model: string) {
    && (forall field :: field in items <==> Listed(local, ups, field, model))
    && (forall field :: field in items ==> items[field] == ItemOf(local, Differing(local, ups), field, model))
  }

  /** The models with a listed price, each with its listed fields. */
  ghost predicate IsExpected(d: Differences, local: Data, ups: Channels) {
    && (forall model :: model in d <==> ListedAnywhere(local, ups, model))
    && (forall model :: model in d ==> IsExpectedModel(d[model], local, ups, model))
  }

  // ----- first pass -----

  ghost predicate IncludedAnywhere(local: Data, ups: Channels, model: string) {
    exists field :: field in Fields && Included(local, ups, field, model)
  }

  /** The first-pass items of one model. */
  ghost predicate IsRawModel(items: map<string, Item>, local: Data, ups: Channels, model: string) {
    && (forall field :: field in items <==> field in Fields && Included(local, ups, field, model))
    && (forall field :: field in items ==> items[field] == ItemOf(local, ups, field, model))
  }

  ghost predicate IsRaw(d: Differences, local: Data, ups: Channels) {
    && (forall model :: model in d <==> IncludedAnywhere(local, ups, model))
    && (forall model :: model in d ==> IsRawModel(d[model], local, ups, model))
  }

  /** A successful channel, as the fetch phase delivers it. */
  datatype Channel = Channel(name: string, data: Data)

  ghost predicate DistinctNames(channels: seq<Channel>) {
    forall i, j :: 0 <= i < j < |channels| ==> channels[i].name != channels[j].name
  }

  function ByName(channels: seq<Channel>): Channels {
    if channels == [] then map[]
    else ByName(channels[..|channels| - 1])[channels[|channels| - 1].name := channels[|channels| - 1].data]
  }

  lemma {:induction false} ByNameHas(channels: seq<Channel>, name: string)
    ensures name in ByName(channels) <==> exists i :: 0 <= i < |channels| && channels[i].name == name
  {
    if channels != [] {
      ByNameHas(channels[..|channels| - 1], name);
      if i :| 0 <= i < |channels| && channels[i].name == name && i != |channels| - 1 {
        assert channels[..|channels| - 1][i] == channels[i];
      }
    }
  }

  lemma ByNameStep(channels: seq<Channel>, i: nat)
    requires i < |channels|
    ensures ByName(channels[..i + 1]) == ByName(channels[..i])[channels[i].name := channels[i].data]
    ensures DistinctNames(channels) ==> channels[i].name !in ByName(channels[..i])
  {
    assert channels[..i + 1][..i] == channels[..i];
    ByNameHas(channels[..i], channels[i].name);
  }

  lemma IncludedStep(local: Data, ups: Channels, name: string, data: Data, field: string, model: string)
    requires name !in ups
    ensures Included(local, ups[name := data], field, model) <==>
            Included(local, ups, field, model) || Counts(local, data, field, model)
  {
    var ups' := ups[name := data];
    if Included(local, ups, field, model) {
      var n :| n in ups && Counts(local, ups[n], field, model);
      assert n in ups' && ups'[n] == ups[n];
    }
    if Counts(local, data, field, model) {
      assert name in ups' && ups'[name] == data;
    }
  }

  lemma ForEachStep<V>(ups: Channels, f: Data -> V, name: string, data: Data)
    ensures ForEach(ups[name := data], f) == ForEach(ups, f)[name := f(data)]
  {
  }

  lemma ItemStep(local: Data, ups: Channels, name: string, data: Data, field: string, model: string)
    ensures var item, item' := ItemOf(local, ups, field, model), ItemOf(local, ups[name := data], field, model);
            item' == item.(upstreams := item.upstreams[name := Cell(local, data, field, model)],
                           confidence := item.confidence[name := Confident(data, model)])
  {
    ForEachStep(ups, d => Cell(local, d, field, model), name, data);
    ForEachStep(ups, d => Confident(d, model), name, data);
  }

  /** One channel in the inner loop: what it shows, and whether it raises the two flags. */
  method CompareOne(local: Data, data: Data, field: string, model: string)
    returns (shown: Val, found: bool, different: bool)
    ensures shown == Cell(local, data, field, model)
    ensures (if Value(local, field, model) != Null then different else found) <==> Counts(local, data, field, model)
  {
    var localValue := Value(local, field, model);
    shown, found, different := Null, false, false;
    if Has(data, field, model) {
      shown := Value(data, field, model);
      found := true;
      if localValue != Null && !ValuesEqual(localValue, shown) {
        different := true;
      } else if ValuesEqual(localValue, shown) {
        shown := Same;
      }
    }
    if shown == Null && localValue == Null {
      shown := Same;
    }
    if localValue == Null && shown != Null && shown != Same {
      different := true;
    }
  }

  /** The inner loop over the channels for one price. */
  method CompareChannels(local: Data, channels: seq<Channel>, field: string, model: string)
    returns (item: Item, shouldInclude: bool)
    requires DistinctNames(channels)
    ensures item == ItemOf(local, ByName(channels), field, model)
    ensures shouldInclude <==> Included(local, ByName(channels), field, model)
  {
    var localValue := Value(local, field, model);
    item := Item(localValue, map[], map[]);
    var hasUpstreamValue, hasDifference := false, false;
    ghost var ups: Channels := map[];
    for i := 0 to |channels|
      invariant ups == ByName(channels[..i])
      invariant item == ItemOf(local, ups, field, model)
      invariant (if localValue != Null then hasDifference else hasUpstreamValue) <==> Included(local, ups, field, model)
    {
      ByNameStep(channels, i);
      var channel := channels[i];
      IncludedStep(local, ups, channel.name, channel.data, field, model);
      ItemStep(local, ups, channel.name, channel.data, field, model);
      var shown, found, different := CompareOne(local, channel.data, field, model);
      hasUpstreamValue := hasUpstreamValue || found;
      hasDifference := hasDifference || different;
      item := item.(upstreams := item.upstreams[channel.name := shown],
                    confidence := item.confidence[channel.name := Confident(channel.data, model)]);
      ups := ups[channel.name := channel.data];
    }
    assert channels[..|channels|] == channels;
    shouldInclude := if localValue != Null then hasDifference else hasUpstreamValue;
  }

  /** The loop over the fields for one model. */
  method CompareFields(local: Data, channels: seq<Channel>, model: string) returns (items: map<string, Item>)
    requires DistinctNames(channels)
    ensures IsRawModel(items, local, ByName(channels), model)
  {
    items := map[];
    for i := 0 to |Fields|
      invariant forall field :: field in items <==>
                field in Fields[..i] && Included(local, ByName(channels), field, model)
      invariant forall field :: field in items ==> items[field] == ItemOf(local, ByName(channels), field, model)
    {
      assert Fields[..i + 1] == Fields[..i] + [Fields[i]];
      var item, shouldInclude := CompareChannels(local, channels, Fields[i], model);
      if shouldInclude {
        items := items[Fields[i] := item];
      }
    }
    assert Fields[..|Fields|] == Fields;
  }

  /** Every model a price is known for. */
  ghost predicate Known(local: Data, channels: seq<Channel>, model: string) {
    exists field ::
      field in Fields
      && (Has(local, field, model) || exists i :: 0 <= i < |channels| && Has(channels[i].data, field, model))
  }

  method TableModels(data: Data) returns (models: set<string>)
    ensures forall model :: model in models <==> exists field :: field in Fields && Has(data, field, model)
  {
    models := {};
    for i := 0 to |Fields|
      invariant forall model :: model in models <==> exists field :: field in Fields[..i] && Has(data, field, model)
    {
      assert Fields[..i + 1] == Fields[..i] + [Fields[i]];
      ghost var before := models;
      models := models + TableOf(data, Fields[i]).Keys;
      forall model ensures model in models <==> exists field :: field in Fields[..i + 1] && Has(data, field, model) {
        assert model in models <==> model in before || Has(data, Fields[i], model);
        assert Fields[i] in Fields[..i + 1];
      }
    }
    assert Fields[..|Fields|] == Fields;
  }

  method AllModels(local: Data, channels: seq<Channel>) returns (models: set<string>)
    ensures forall model :: Known(local, channels, model) ==> model in models
  {
    models := TableModels(local);
    for i := 0 to |channels|
      invariant forall model, field :: field in Fields && Has(local, field, model) ==> model in models
      invariant forall model, field, k :: 0 <= k < i && field in Fields && Has(channels[k].data, field, model) ==>
                model in models
    {
      var more := TableModels(channels[i].data);
      models := models + more;
    }
  }

  lemma {:induction false} ByNameData(channels: seq<Channel>, name: string) returns (i: nat)
    requires name in ByName(channels)
    ensures i < |channels| && channels[i].name == name && channels[i].data == ByName(channels)[name]
  {
    var last := |channels| - 1;
    if channels[last].name == name {
      i := last;
    } else {
      i := ByNameData(channels[..last], name);
    }
  }

  lemma {:induction false} IncludedIsKnown(local: Data, channels: seq<Channel>, field: string, model: string)
    requires field in Fields && Included(local, ByName(channels), field, model)
    ensures Known(local, channels, model)
  {
    var ups := ByName(channels);
    var name :| name in ups && Counts(local, ups[name], field, model);
    var i := ByNameData(channels, name);
    assert Has(channels[i].data, field, model);
  }

  lemma RawModelIsEmpty(items: map<string, Item>, local: Data, ups: Channels, model: string)
    requires IsRawModel(items, local, ups, model)
    ensures items.Keys != {} <==> IncludedAnywhere(local, ups, model)
  {
    if items.Keys != {} {
      var field :| field in items;
    } else {
      assert forall field :: field in items <==> field in items.Keys;
    }
  }

  /** The first pass over all models, in any order. */
  method FirstPass(local: Data, channels: seq<Channel>) returns (d: Differences)
    requires DistinctNames(channels)
    ensures IsRaw(d, local, ByName(channels))
  {
    var ups := ByName(channels);
    var models := AllModels(local, channels);
    d := map[];
    while models != {}
      invariant forall model :: Known(local, channels, model) && IncludedAnywhere(local, ups, model) ==>
                model in models || model in d
      invariant forall model :: model in d ==>
                IncludedAnywhere(local, ups, model) && IsRawModel(d[model], local, ups, model)
      decreases |models|
    {
      var model :| model in models;
      var items := CompareFields(local, channels, model);
      RawModelIsEmpty(items, local, ups, model);
      if items.Keys != {} {
        d := d[model := items];
      }
      models := models - {model};
    }
    forall model | IncludedAnywhere(local, ups, model) ensures model in d {
      var field :| field in Fields && Included(local, ups, field, model);
      IncludedIsKnown(local, channels, field, model);
    }
  }

  // ----- second pass: which channels differ anywhere -----

  predicate Shows(item: Item, name: string) {
    name in item.upstreams && item.upstreams[name] != Null && item.upstreams[name] != Same
  }

  method ShownIn(items: map<string, Item>) returns (names: set<string>)
    ensures forall name :: name in names <==> exists field :: field in items && Shows(items[field], name)
  {
    names := {};
    var fields := items.Keys;
    while fields != {}
      invariant fields <= items.Keys
      invariant forall name :: name in names <==>
                exists field :: field in items && field !in fields && Shows(items[field], name)
      decreases |fields|
    {
      var field :| field in fields;
      var more := set name | name in items[field].upstreams && Shows(items[field], name);
      ghost var names0, fields0 := names, fields;
      names := names + more;
      fields := fields - {field};
      forall name ensures name in names <==> exists f :: f in items && f !in fields && Shows(items[f], name) {
        assert name in more <==> Shows(items[field], name);
      }
    }
  }

  ghost predicate IsShownSet(names: set<string>, d: Differences) {
    forall name :: name in names <==>
      exists model, field :: model in d && field in d[model] && Shows(d[model][field], name)
  }

  method ChannelsWithDiff(d: Differences) returns (names: set<string>)
    ensures IsShownSet(names, d)
  {
    names := {};
    var models := d.Keys;
    while models != {}
      invariant models <= d.Keys
      invariant forall name :: name in names <==>
                  exists model, field ::
                    model in d && model !in models && field in d[model] && Shows(d[model][field], name)
      decreases |models|
    {
      var model :| model in models;
      var more := ShownIn(d[model]);
      names := names + more;
      models := models - {model};
    }
  }

  // ----- third pass: pruning -----

  function Trim(item: Item, names: set<string>): Item {
    item.(upstreams := map name | name in item.upstreams && name in names :: item.upstreams[name],
          confidence := map name | name in item.confidence && name in names :: item.confidence[name])
  }

  /** After trimming, the item has a channel that is not "same". */
  predicate Keeps(item: Item, names: set<string>) {
    exists name :: name in item.upstreams && name in names && item.upstreams[name] != Same
  }

  ghost predicate IsPrunedModel(kept: map<string, Item>, items: map<string, Item>, names: set<string>) {
    && (forall field :: field in kept <==> field in items && Keeps(items[field], names))
    && (forall field :: field in kept ==> kept[field] == Trim(items[field], names))
  }

  method PruneFields(items: map<string, Item>, names: set<string>) returns (kept: map<string, Item>)
    ensures IsPrunedModel(kept, items, names)
  {
    kept := items;
    var fields := items.Keys;
    while fields != {}
      invariant fields <= kept.Keys <= items.Keys
      invariant forall field :: field in items ==> (field in kept <==> field in fields || Keeps(items[field], names))
      invariant forall field :: field in kept ==>
                kept[field] == if field in fields then items[field] else Trim(items[field], names)
      decreases |fields|
    {
      var field :| field in fields;
      var item := Trim(items[field], names);
      var allSame := forall name :: name in item.upstreams ==> item.upstreams[name] == Same;
      assert Keeps(items[field], names) <==> !allSame by {
        assert forall name :: name in item.upstreams <==> name in items[field].upstreams && name in names;
      }
      if item.upstreams.Keys == {} || allSame {
        assert allSame by {
          assert forall name :: name in item.upstreams <==> name in item.upstreams.Keys;
        }
        kept := kept - {field};
      } else {
        kept := kept[field := item];
      }
      fields := fields - {field};
    }
  }

  ghost predicate KeepsAny(items: map<string, Item>, names: set<string>) {
    exists field :: field in items && Keeps(items[field], names)
  }

  ghost predicate IsPruned(d': Differences, d: Differences, names: set<string>) {
    && (forall model :: model in d' <==> model in d && KeepsAny(d[model], names))
    && (forall model :: model in d' && model in d ==> IsPrunedModel(d'[model], d[model], names))
  }

  lemma PrunedModelIsEmpty(kept: map<string, Item>, items: map<string, Item>, names: set<string>)
    requires IsPrunedModel(kept, items, names)
    ensures kept.Keys != {} <==> KeepsAny(items, names)
  {
    if kept.Keys != {} {
      var field :| field in kept;
    } else {
      assert forall field :: field in kept <==> field in kept.Keys;
    }
  }

  method Prune(d: Differences, names: set<string>) returns (d': Differences)
    ensures IsPruned(d', d, names)
  {
    d' := map[];
    var models := d.Keys;
    while models != {}
      invariant models <= d.Keys && d'.Keys <= d.Keys - models
      invariant forall model :: model in d ==> model in models || (model in d' <==> KeepsAny(d[model], names))
      invariant forall model :: model in d' ==> IsPrunedModel(d'[model], d[model], names)
      decreases |models|
    {
      var model :| model in models;
      var kept := PruneFields(d[model], names);
      PrunedModelIsEmpty(kept, d[model], names);
      if kept.Keys != {} {
        d' := d'[model := kept];
      }
      models := models - {model};
    }
  }

  // ----- the passes together -----

  lemma ItemShows(local: Data, ups: Channels, field: string, model: string, name: string)
    ensures Shows(ItemOf(local, ups, field, model), name) <==> name in ups && Differs(local, ups[name], field, model)
  {
  }

  lemma DiffersIsIncluded(local: Data, ups: Channels, field: string, model: string, name: string)
    requires name in ups && Differs(local, ups[name], field, model)
    ensures Included(local, ups, field, model)
  {
    assert Counts(local, ups[name], field, model);
  }

  /** The second pass finds exactly the channels that differ somewhere. */
  lemma ShownSetIsDiffering(d: Differences, names: set<string>, local: Data, ups: Channels, name: string)
    requires IsRaw(d, local, ups) && IsShownSet(names, d)
    ensures name in names <==> name in ups && DiffersSomewhere(local, ups[name])
  {
    if name in names {
      var model, field :| model in d && field in d[model] && Shows(d[model][field], name);
      assert IsRawModel(d[model], local, ups, model);
      ItemShows(local, ups, field, model, name);
    }
    if name in ups && DiffersSomewhere(local, ups[name]) {
      var field, model :| field in Fields && Differs(local, ups[name], field, model);
      DiffersIsIncluded(local, ups, field, model, name);
      assert IncludedAnywhere(local, ups, model) && IsRawModel(d[model], local, ups, model);
      ItemShows(local, ups, field, model, name);
      assert Shows(d[model][field], name);
    }
  }

  lemma Restricted<V>(ups: Channels, f: Data -> V, names: set<string>, kept: Channels)
    requires kept.Keys == ups.Keys * names && forall name :: name in kept ==> kept[name] == ups[name]
    ensures (map name | name in ForEach(ups, f) && name in names :: ForEach(ups, f)[name]) == ForEach(kept, f)
  {
  }

  /** Pruning an item leaves the view of the differing channels. */
  lemma TrimmedItem(local: Data, ups: Channels, names: set<string>, field: string, model: string)
    requires Differing(local, ups).Keys == ups.Keys * names
    ensures Trim(ItemOf(local, ups, field, model), names) == ItemOf(local, Differing(local, ups), field, model)
  {
    Restricted(ups, d => Cell(local, d, field, model), names, Differing(local, ups));
    Restricted(ups, d => Confident(d, model), names, Differing(local, ups));
  }

  lemma KeptItem(local: Data, ups: Channels, names: set<string>, field: string, model: string)
    requires Differing(local, ups).Keys == ups.Keys * names
    ensures Keeps(ItemOf(local, ups, field, model), names) <==> NotAllSame(local, Differing(local, ups), field, model)
  {
    var item, kept := ItemOf(local, ups, field, model), Differing(local, ups);
    forall name ensures name in item.upstreams && name in names <==> name in kept {
      assert name in kept <==> name in kept.Keys;
    }
  }

  lemma ShownSet(d: Differences, names: set<string>, local: Data, ups: Channels)
    requires IsRaw(d, local, ups) && IsShownSet(names, d)
    ensures Differing(local, ups).Keys == ups.Keys * names
  {
    forall name ensures name in names <==> name in ups && DiffersSomewhere(local, ups[name]) {
      ShownSetIsDiffering(d, names, local, ups, name);
    }
  }

  lemma ListedIffKept(d: Differences, names: set<string>, local: Data, ups: Channels, field: string, model: string)
    requires IsRaw(d, local, ups) && Differing(local, ups).Keys == ups.Keys * names
    ensures Listed(local, ups, field, model) <==> model in d && field in d[model] && Keeps(d[model][field], names)
  {
    KeptItem(local, ups, names, field, model);
    if model in d {
      assert IsRawModel(d[model], local, ups, model);
    } else {
      assert !IncludedAnywhere(local, ups, model);
    }
  }

  lemma PrunedModelIsExpected(d: Differences, names: set<string>, kept: map<string, Item>, local: Data, ups: Channels,
                              model: string)
    requires IsRaw(d, local, ups) && Differing(local, ups).Keys == ups.Keys * names
    requires model in d && IsPrunedModel(kept, d[model], names)
    ensures IsExpectedModel(kept, local, ups, model)
  {
    assert IsRawModel(d[model], local, ups, model);
    forall field ensures field in kept <==> Listed(local, ups, field, model) {
      ListedIffKept(d, names, local, ups, field, model);
    }
    forall field | field in kept ensures kept[field] == ItemOf(local, Differing(local, ups), field, model) {
      TrimmedItem(local, ups, names, field, model);
    }
  }

  lemma PrunedIsExpected(d: Differences, names: set<string>, d': Differences, local: Data, ups: Channels)
    requires IsRaw(d, local, ups) && IsShownSet(names, d) && IsPruned(d', d, names)
    ensures IsExpected(d', local, ups)
  {
    ShownSet(d, names, local, ups);
    forall model ensures model in d' <==> ListedAnywhere(local, ups, model) {
      if model in d && KeepsAny(d[model], names) {
        var field :| field in d[model] && Keeps(d[model][field], names);
        ListedIffKept(d, names, local, ups, field, model);
      }
      if ListedAnywhere(local, ups, model) {
        var field :| Listed(local, ups, field, model);
        ListedIffKept(d, names, local, ups, field, model);
      }
    }
    forall model | model in d' ensures IsExpectedModel(d'[model], local, ups, model) {
      PrunedModelIsExpected(d, names, d'[model], local, ups, model);
    }
  }

  /** buildDifferences: the passes in order, whatever order the maps are walked in. */
  method BuildDifferences(local: Data, channels: seq<Channel>) returns (differences: Differences)
    requires DistinctNames(channels)
    ensures IsExpected(differences, local, ByName(channels))
  {
    var raw := FirstPass(local, channels);
    var names := ChannelsWithDiff(raw);
    differences := Prune(raw, names);
    PrunedIsExpected(raw, names, differences, local, ByName(channels));
  }

  // ----- what the result says -----

  ghost predicate SomeDiffers(local: Data, ups: Channels, field: string, model: string) {
    exists name :: name in ups && Differs(local, ups[name], field, model)
  }

  /** A channel differs when it supplies a value other than the literal "same" that is not equal, within
      tolerance, to the local one. */
  lemma DiffersMeans(local: Data, data: Data, field: string, model: string)
    ensures Differs(local, data, field, model) <==>
            var l, u := Value(local, field, model), Value(data, field, model);
            Has(data, field, model) && u != Null && u != Same && !ValuesEqual(l, u)
  {
  }

  lemma DifferingIsListed(local: Data, ups: Channels, field: string, model: string, name: string)
    requires field in Fields && name in ups && Differs(local, ups[name], field, model)
    ensures Listed(local, ups, field, model)
  {
    DiffersIsIncluded(local, ups, field, model, name);
    assert DiffersSomewhere(local, ups[name]);
    assert name in Differing(local, ups);
  }

  /** For every input: a price is listed when some channel differs there; otherwise only when the local
      price is set, a channel's value (null or the literal "same") counts as unequal to it, and a
      channel that differs elsewhere has no value for the price. */
  lemma ListedIff(local: Data, ups: Channels, field: string, model: string)
    requires field in Fields
    ensures Listed(local, ups, field, model) <==>
            || SomeDiffers(local, ups, field, model)
            || (Value(local, field, model) != Null && Included(local, ups, field, model) &&
                exists name ::
                  name in ups && DiffersSomewhere(local, ups[name]) && Value(ups[name], field, model) == Null)
  {
    if name :| name in ups && Differs(local, ups[name], field, model) {
      DifferingIsListed(local, ups, field, model, name);
    } else {
      forall name | name in ups
        ensures Cell(local, ups[name], field, model) != Same <==>
                Value(local, field, model) != Null && Value(ups[name], field, model) == Null
      {
        assert !Differs(local, ups[name], field, model);
      }
      var kept := Differing(local, ups);
      if Listed(local, ups, field, model) {
        var name :| name in kept && Cell(local, kept[name], field, model) != Same;
        assert name in ups && DiffersSomewhere(local, ups[name]) && Value(ups[name], field, model) == Null;
      }
      if Value(local, field, model) != Null && Included(local, ups, field, model) {
        if name :| name in ups && DiffersSomewhere(local, ups[name]) && Value(ups[name], field, model) == Null {
          assert name in kept && kept[name] == ups[name] && Cell(local, kept[name], field, model) != Same;
        }
      }
    }
  }

  /** When no channel supplies null or the literal "same" for it, a price is listed exactly when some
      channel supplies a value the local side lacks or that is not equal to it: pruning drops nothing. */
  lemma ListedIffSupplied(local: Data, ups: Channels, field: string, model: string)
    requires field in Fields
    requires forall name :: name in ups && Has(ups[name], field, model) ==>
               Value(ups[name], field, model) != Null && Value(ups[name], field, model) != Same
    ensures Listed(local, ups, field, model) <==> Included(local, ups, field, model)
  {
    if Included(local, ups, field, model) {
      var name :| name in ups && Counts(local, ups[name], field, model);
      assert Differs(local, ups[name], field, model);
      DifferingIsListed(local, ups, field, model, name);
    }
  }

  /** A channel whose only price is an explicit null counts as unequal and is then pruned away. */
  lemma NullIsPruned()
    ensures var local := map["model_price" := map["m" := Float(1.0)]];
            var ups := map["c" := map["model_price" := map["m" := Null]]];
            Included(local, ups, "model_price", "m") && !Listed(local, ups, "model_price", "m")
  {
    var local: Data, data: Data := map["model_price" := map["m" := Float(1.0)]], map["model_price" := map["m" := Null]];
    var ups: Channels := map["c" := data];
    assert Counts(local, ups["c"], "model_price", "m");
    forall field, model ensures !Differs(local, data, field, model) {
      assert Value(data, field, model) == Null;
    }
    assert Differing(local, ups) == map[];
  }

  lemma EqualMaps<V>(m: map<string, V>, m': map<string, V>)
    requires forall k :: k in m <==> k in m'
    requires forall k :: k in m && k in m' ==> m[k] == m'[k]
    ensures m == m'
  {
  }

  lemma ExpectedModelIsUnique(items: map<string, Item>, items': map<string, Item>, local: Data, ups: Channels,
                              model: string)
    requires IsExpectedModel(items, local, ups, model) && IsExpectedModel(items', local, ups, model)
    ensures items == items'
  {
    forall field ensures field in items <==> field in items' {
      assert field in items <==> Listed(local, ups, field, model);
    }
    EqualMaps(items, items');
  }

  /** The definition fixes the result. */
  lemma ExpectedIsUnique(d: Differences, d': Differences, local: Data, ups: Channels)
    requires IsExpected(d, local, ups) && IsExpected(d', local, ups)
    ensures d == d'
  {
    forall model ensures model in d <==> model in d' {
      assert model in d <==> ListedAnywhere(local, ups, model);
    }
    forall model | model in d && model in d' ensures d[model] == d'[model] {
      ExpectedModelIsUnique(d[model], d'[model], local, ups, model);
    }
    EqualMaps(d, d');
  }

  lemma {:induction false} LastIsKept(channels: seq<Channel>, i: nat)
    requires DistinctNames(channels) && i < |channels|
    ensures channels[i].name in ByName(channels) && ByName(channels)[channels[i].name] == channels[i].data
  {
    if i < |channels| - 1 {
      LastIsKept(channels[..|channels| - 1], i);
    }
  }

  /** The order in which the fetches finish does not matter. */
  lemma {:induction false} OrderDoesNotMatter(channels: seq<Channel>, channels': seq<Channel>)
    requires DistinctNames(channels) && DistinctNames(channels')
    requires forall c :: c in channels <==> c in channels'
    ensures ByName(channels) == ByName(channels')
  {
    forall name | name in ByName(channels)
      ensures name in ByName(channels') && ByName(channels')[name] == ByName(channels)[name]
    {
      var i := ByNameData(channels, name);
      assert channels[i] in channels';
      var j :| 0 <= j < |channels'| && channels'[j] == channels[i];
      LastIsKept(channels', j);
    }
    forall name | name in ByName(channels') ensures name in ByName(channels) {
      var i := ByNameData(channels', name);
      assert channels'[i] in channels;
      var j :| 0 <= j < |channels| && channels[j] == channels'[i];
      LastIsKept(channels, j);
    }
  }
}
