/** The upstream model sync of controller/channel_upstream_update.go: detecting the differences between a
    channel's models and its provider's, and applying, ignoring or automatically adopting them.

    Matching a regular expression of the ignore list is the uninterpreted predicate `matches(body, name)`. */
module UpstreamSync {
  import opened Base
  import opened ModelNames
  import TextList

  type Regex = (string, string) -> bool

  /** What is stored for a channel. */
  datatype Row = Row(models: string, pendingAdd: seq<string>, pendingRemove: seq<string>, ignored: seq<string>,
                     checkedAt: int)

  /** What a detection sees: the provider's model list, unless the fetch failed, and the redirects. */
  datatype Source = Source(upstream: Option<seq<string>>, mapping: map<string, string>)

  // ----- pending changes -----

  predicate HasRegexPrefix(entry: string) { |entry| >= 6 && entry[..6] == "regex:" }

  predicate Ignores(entry: string, name: string, matches: Regex) {
    if HasRegexPrefix(entry) then matches(TrimSpace(entry[6..]), name) else entry == name
  }

  predicate IgnoredBy(ignored: seq<string>, name: string, matches: Regex) {
    exists entry :: entry in ignored && Ignores(entry, name, matches)
  }

  /** collectPendingUpstreamModelChangesFromModels. */
  function PendingAdd(local: seq<string>, upstream: seq<string>, ignored: seq<string>, mapping: map<string, string>,
                      matches: Regex): seq<string>
  {
    Normalize(Keep(Normalize(upstream), x =>
      x !in Normalize(local) && x !in mapping.Values && !IgnoredBy(Normalize(ignored), x, matches)))
  }

  function PendingRemove(local: seq<string>, upstream: seq<string>, mapping: map<string, string>): seq<string> {
    Normalize(Keep(Normalize(local), x => x !in mapping.Keys && x !in Normalize(upstream)))
  }

  /** Additions are provider models that are neither present, nor redirect targets, nor ignored. */
  lemma {:induction false} PendingAddMeans(local: seq<string>, upstream: seq<string>, ignored: seq<string>,
                                           mapping: map<string, string>, matches: Regex, x: string)
    ensures Clean(PendingAdd(local, upstream, ignored, mapping, matches))
    ensures x in PendingAdd(local, upstream, ignored, mapping, matches) <==>
            x in Normalize(upstream) && x !in Normalize(local) && x !in mapping.Values &&
            !IgnoredBy(Normalize(ignored), x, matches)
  {
    var p := (y: string) =>
      y !in Normalize(local) && y !in mapping.Values && !IgnoredBy(Normalize(ignored), y, matches);
    NormalizeIsClean(upstream);
    KeepIsClean(Normalize(upstream), p);
    KeepHas(Normalize(upstream), p, x);
    NormalizeClean(Keep(Normalize(upstream), p));
  }

  /** Removals are local models that the provider lacks and that are not redirect sources. */
  lemma {:induction false} PendingRemoveMeans(local: seq<string>, upstream: seq<string>, mapping: map<string, string>,
                                              x: string)
    ensures Clean(PendingRemove(local, upstream, mapping))
    ensures x in PendingRemove(local, upstream, mapping) <==>
            x in Normalize(local) && x !in mapping.Keys && x !in Normalize(upstream)
  {
    var p := (y: string) => y !in mapping.Keys && y !in Normalize(upstream);
    NormalizeIsClean(local);
    KeepIsClean(Normalize(local), p);
    KeepHas(Normalize(local), p, x);
    NormalizeClean(Keep(Normalize(local), p));
  }

  // ----- the operations -----

  function LocalOf(row: Row): seq<string> { Local(row.models) }

  /** checkAndPersistChannelUpstreamModelUpdates, once it decides to check; `adopt` says that auto-apply
      is allowed and auto-sync enabled. */
  function Detect(row: Row, source: Source, matches: Regex, adopt: bool, now: int): Row {
    if source.upstream == None then row.(checkedAt := now)
    else
      var add := PendingAdd(GetModels(row.models), source.upstream.value, row.ignored, source.mapping, matches);
      var remove := PendingRemove(GetModels(row.models), source.upstream.value, source.mapping);
      var merged := Merge(LocalOf(row), add);
      if adopt && add != [] then
        row.(models := if |merged| > |LocalOf(row)| then TextList.Join(merged, ',') else row.models,
             pendingAdd := [], pendingRemove := remove, checkedAt := now)
      else
        row.(pendingAdd := add, pendingRemove := remove, checkedAt := now)
  }

  /** Ignoring a name lists it; adding a name takes it off the list again. */
  function NextIgnored(ignored: seq<string>, add: seq<string>, ignore: seq<string>): seq<string> {
    if add != [] then Subtract(Merge(ignored, ignore), add) else Merge(ignored, ignore)
  }

  /** applyChannelUpstreamModelUpdates. */
  function Apply(row: Row, addInput: seq<string>, ignoreInput: seq<string>, removeInput: seq<string>, now: int): Row {
    var pendingAdd, pendingRemove := Normalize(row.pendingAdd), Normalize(row.pendingRemove);
    var add := Intersect(addInput, pendingAdd);
    var ignore := Intersect(ignoreInput, pendingAdd);
    var remove := Subtract(Intersect(removeInput, pendingRemove), add);
    var next := ApplySelected(LocalOf(row), add, remove);
    Row(if next != LocalOf(row) then TextList.Join(next, ',') else row.models,
        Subtract(pendingAdd, add + ignore),
        Subtract(pendingRemove, remove),
        NextIgnored(row.ignored, add, ignore),
        now)
  }

  /** ApplyAllChannelUpstreamModelUpdates, for one channel. */
  function ApplyAll(row: Row, now: int): Row {
    var add, remove := Normalize(row.pendingAdd), Normalize(row.pendingRemove);
    if add == [] && remove == [] then row else Apply(row, add, [], remove, now)
  }

  // ----- what each operation does to the lists -----

  /** The staged changes fit the channel: additions are new, removals exist, and the lists are in normal form. */
  ghost predicate Staged(row: Row) {
    && Clean(row.pendingAdd) && Clean(row.pendingRemove)
    && (forall x :: x in row.pendingAdd ==> x !in LocalOf(row))
    && (forall x :: x in row.pendingRemove ==> x in LocalOf(row))
  }

  /** No name falls apart, at its commas, into another one of the list. */
  ghost predicate Separate(names: seq<string>) {
    forall x, y :: x in names && y in names && y in Parts(x) ==> y == x
  }

  /** The column after names are joined into it: the channel's own names stay whole, others fall apart. */
  lemma {:induction false} JoinedModels(row: Row, names: seq<string>, x: string)
    requires forall y :: y in names ==> IsName(y)
    ensures x in Local(TextList.Join(names, ',')) <==>
            (x in names && x in LocalOf(row)) || exists y :: y in names && y !in LocalOf(row) && x in Parts(y)
  {
    LocalOfAnyJoin(names, x);
    forall y | y in names && y in LocalOf(row) ensures Parts(y) == [y] {
      LocalIsPlain(row.models, y);
      PlainParts(y);
    }
  }

  lemma AdoptKeeps(row: Row, add: seq<string>, kept: seq<string>)
    requires forall x :: x in kept ==> x in LocalOf(row)
    ensures forall x :: x in kept ==> x in Local(TextList.Join(Merge(LocalOf(row), add), ','))
  {
    var merged := Merge(LocalOf(row), add);
    MergeMeans(LocalOf(row), add, "");
    NormalizeTwice(GetModels(row.models));
    forall x | x in kept ensures x in Local(TextList.Join(merged, ',')) {
      MergeMeans(LocalOf(row), add, x);
      JoinedModels(row, merged, x);
    }
  }

  /** Every successful detection stages changes that fit. */
  lemma DetectStages(row: Row, source: Source, matches: Regex, adopt: bool, now: int)
    requires source.upstream.Some?
    ensures Staged(Detect(row, source, matches, adopt, now))
    ensures forall x :: x in Detect(row, source, matches, adopt, now).pendingAdd ==>
            x in Normalize(source.upstream.value)
  {
    var up, models := source.upstream.value, GetModels(row.models);
    var add := PendingAdd(models, up, row.ignored, source.mapping, matches);
    var remove := PendingRemove(models, up, source.mapping);
    PendingAddMeans(models, up, row.ignored, source.mapping, matches, "");
    PendingRemoveMeans(models, up, source.mapping, "");
    forall x | x in add ensures x !in LocalOf(row) && x in Normalize(up) {
      PendingAddMeans(models, up, row.ignored, source.mapping, matches, x);
    }
    forall x | x in remove ensures x in LocalOf(row) {
      PendingRemoveMeans(models, up, source.mapping, x);
    }
    if adopt && add != [] {
      AdoptKeeps(row, add, remove);
    }
  }

  /** The name-by-name effect of an apply on the channel's models. */
  ghost predicate ModelsAfter(row: Row, add: seq<string>, remove: seq<string>, models: string) {
    forall x :: x in Local(models) <==>
      (exists y :: y in row.pendingAdd && y in Normalize(add) && x in Parts(y)) ||
      (x in LocalOf(row) && !(x in row.pendingRemove && x in Normalize(remove)))
  }

  lemma {:induction false} SelectedSets(row: Row, addInput: seq<string>, removeInput: seq<string>, x: string)
    requires Staged(row)
    ensures var add, chosen := Intersect(addInput, row.pendingAdd), Intersect(removeInput, row.pendingRemove);
            && Clean(add) && Clean(Subtract(chosen, add))
            && (x in add <==> x in Normalize(addInput) && x in row.pendingAdd)
            && (x in Subtract(chosen, add) <==> x in Normalize(removeInput) && x in row.pendingRemove)
  {
    var add, chosen := Intersect(addInput, row.pendingAdd), Intersect(removeInput, row.pendingRemove);
    NormalizeClean(row.pendingAdd);
    NormalizeClean(row.pendingRemove);
    IntersectMeans(addInput, row.pendingAdd, x);
    IntersectMeans(removeInput, row.pendingRemove, x);
    SubtractMeans(chosen, add, x);
    NormalizeClean(chosen);
    NormalizeClean(add);
  }

  /** Joining the channel's own models gives the same models back. */
  lemma {:induction false} NothingJoined(row: Row, names: seq<string>)
    requires names == LocalOf(row)
    ensures LocalOf(row) == Local(TextList.Join(names, ','))
  {
    NormalizeIsClean(GetModels(row.models));
    forall i | 0 <= i < |names| ensures TextList.Plain(names[i], ',') {
      LocalIsPlain(row.models, names[i]);
    }
    LocalOfJoin(names);
  }

  lemma ApplyModels(row: Row, addInput: seq<string>, ignoreInput: seq<string>, removeInput: seq<string>, now: int)
    requires Staged(row)
    ensures ModelsAfter(row, addInput, removeInput, Apply(row, addInput, ignoreInput, removeInput, now).models)
  {
    NormalizeClean(row.pendingAdd);
    NormalizeClean(row.pendingRemove);
    var add := Intersect(addInput, row.pendingAdd);
    var remove := Subtract(Intersect(removeInput, row.pendingRemove), add);
    var next := ApplySelected(LocalOf(row), add, remove);
    SelectedSets(row, addInput, removeInput, "");
    NormalizeClean(add);
    NormalizeClean(remove);
    NormalizeTwice(GetModels(row.models));
    ApplySelectedMeans(LocalOf(row), add, remove, "");
    forall y
      ensures y in next <==> (y in row.pendingAdd && y in Normalize(addInput)) ||
                             (y in LocalOf(row) && !(y in row.pendingRemove && y in Normalize(removeInput)))
    {
      SelectedSets(row, addInput, removeInput, y);
      ApplySelectedMeans(LocalOf(row), add, remove, y);
    }
    forall x
      ensures x in Local(TextList.Join(next, ',')) <==>
                (exists y :: y in row.pendingAdd && y in Normalize(addInput) && x in Parts(y)) ||
                (x in LocalOf(row) && !(x in row.pendingRemove && x in Normalize(removeInput)))
    {
      JoinedModels(row, next, x);
    }
    if next == LocalOf(row) {
      NothingJoined(row, next);
    }
  }

  /** The name-by-name effect of an apply on the two pending lists. */
  lemma {:induction false} ApplyPending(row: Row, addInput: seq<string>, ignoreInput: seq<string>,
                                        removeInput: seq<string>, now: int)
    requires Staged(row)
    ensures var row' := Apply(row, addInput, ignoreInput, removeInput, now);
            && Clean(row'.pendingAdd) && Clean(row'.pendingRemove)
            && (forall x :: x in row'.pendingAdd <==>
                  x in row.pendingAdd && x !in Normalize(addInput) && x !in Normalize(ignoreInput))
            && (forall x :: x in row'.pendingRemove <==> x in row.pendingRemove && x !in Normalize(removeInput))
  {
    var row' := Apply(row, addInput, ignoreInput, removeInput, now);
    NormalizeClean(row.pendingAdd);
    NormalizeClean(row.pendingRemove);
    var add, ignore := Intersect(addInput, row.pendingAdd), Intersect(ignoreInput, row.pendingAdd);
    var remove := Subtract(Intersect(removeInput, row.pendingRemove), add);
    SelectedSets(row, addInput, removeInput, "");
    SubtractMeans(row.pendingAdd, add + ignore, "");
    SubtractMeans(row.pendingRemove, remove, "");
    IntersectMeans(ignoreInput, row.pendingAdd, "");
    NormalizeClean(add);
    NormalizeClean(ignore);
    NormalizeClean(remove);
    forall x
      ensures x in row'.pendingAdd <==> x in row.pendingAdd && x !in Normalize(addInput) && x !in Normalize(ignoreInput)
      ensures x in row'.pendingRemove <==> x in row.pendingRemove && x !in Normalize(removeInput)
    {
      SelectedSets(row, addInput, removeInput, x);
      IntersectMeans(ignoreInput, row.pendingAdd, x);
      SubtractMeans(row.pendingAdd, add + ignore, x);
      MergeMeans(add, ignore, x);
      SubtractMeans(row.pendingRemove, remove, x);
    }
  }

  lemma ApplyStages(row: Row, addInput: seq<string>, ignoreInput: seq<string>, removeInput: seq<string>, now: int)
    requires Staged(row) && Separate(row.pendingAdd)
    ensures var row' := Apply(row, addInput, ignoreInput, removeInput, now); Staged(row') && Separate(row'.pendingAdd)
  {
    ApplyModels(row, addInput, ignoreInput, removeInput, now);
    ApplyPending(row, addInput, ignoreInput, removeInput, now);
  }

  // ----- every run -----

  datatype Op =
    | DetectOp(source: Source, adopt: bool, now: int)
    | ApplyOp(add: seq<string>, ignore: seq<string>, remove: seq<string>, now: int)
    | ApplyAllOp(now: int)
    | StoreFails  // the database update fails: nothing is stored

  function Do(row: Row, op: Op, matches: Regex): Row {
    match op
    case DetectOp(source, adopt, now) => Detect(row, source, matches, adopt, now)
    case ApplyOp(add, ignore, remove, now) => Apply(row, add, ignore, remove, now)
    case ApplyAllOp(now) => ApplyAll(row, now)
    case StoreFails => row
  }

  function Run(row: Row, ops: seq<Op>, matches: Regex): Row
    decreases |ops|
  {
    if ops == [] then row else Run(Do(row, ops[0], matches), ops[1..], matches)
  }

  /** Detections see one of the given provider lists. */
  predicate Sees(op: Op, lists: set<seq<string>>) {
    op.DetectOp? && op.source.upstream.Some? ==> op.source.upstream.value in lists
  }

  /** A run whose first step is a successful detection. */
  predicate StartsByDetecting(ops: seq<Op>, lists: set<seq<string>>) {
    && ops != [] && ops[0].DetectOp? && ops[0].source.upstream.Some?
    && forall i :: 0 <= i < |ops| ==> Sees(ops[i], lists)
  }

  ghost predicate AllSeparate(lists: set<seq<string>>) { forall up :: up in lists ==> Separate(Normalize(up)) }

  lemma DoStages(row: Row, op: Op, matches: Regex, lists: set<seq<string>>)
    requires Sees(op, lists) && AllSeparate(lists)
    requires (Staged(row) && Separate(row.pendingAdd)) || (op.DetectOp? && op.source.upstream.Some?)
    ensures var row' := Do(row, op, matches); Staged(row') && Separate(row'.pendingAdd)
  {
    match op {
      case DetectOp(source, adopt, now) =>
        if source.upstream.Some? {
          DetectStages(row, source, matches, adopt, now);
        }
      case ApplyOp(add, ignore, remove, now) => ApplyStages(row, add, ignore, remove, now);
      case ApplyAllOp(now) => ApplyStages(row, Normalize(row.pendingAdd), [], Normalize(row.pendingRemove), now);
      case StoreFails =>
    }
  }

  lemma {:induction false} RunStages(row: Row, ops: seq<Op>, matches: Regex, lists: set<seq<string>>)
    requires AllSeparate(lists) && forall i :: 0 <= i < |ops| ==> Sees(ops[i], lists)
    requires (Staged(row) && Separate(row.pendingAdd)) || StartsByDetecting(ops, lists)
    ensures Staged(Run(row, ops, matches))
    decreases |ops|
  {
    if ops != [] {
      DoStages(row, ops[0], matches, lists);
      RunStages(Do(row, ops[0], matches), ops[1..], matches, lists);
    }
  }

  ghost predicate AlwaysStaged(lists: set<seq<string>>, matches: Regex) {
    forall row: Row, ops: seq<Op> | StartsByDetecting(ops, lists) :: Staged(Run(row, ops, matches))
  }

  /** Applying a pending name that falls apart into another pending name leaves a staged name that is already there. */
  lemma FallsApart(row: Row, x: string, y: string, now: int)
    requires Staged(row) && x in row.pendingAdd && y in row.pendingAdd && y in Parts(x) && y != x
    ensures !Staged(Apply(row, [x], [], [], now))
  {
    NormalizeClean([x]);
    assert x in [x] && y !in [x];
    ApplyModels(row, [x], [], [], now);
    ApplyPending(row, [x], [], [], now);
    assert y in Apply(row, [x], [], [], now).pendingAdd;
  }

  /** From an empty channel everything the provider lists is staged. */
  lemma {:induction false} FirstDetect(up: seq<string>, matches: Regex, x: string)
    requires x in Normalize(up)
    ensures x in Detect(Row("", [], [], [], 0), Source(Some(up), map[]), matches, false, 0).pendingAdd
  {
    PendingAddMeans([], up, [], map[], matches, x);
  }

  lemma {:induction false} RunOfTwo(row: Row, first: Op, second: Op, matches: Regex)
    ensures Run(row, [first, second], matches) == Do(Do(row, first, matches), second, matches)
  {
    var ops, row' := [first, second], Do(row, first, matches);
    assert ops[1..] == [second];
    assert Run(row', [second], matches) == Do(row', second, matches) by {
      assert [second][1..] == [];
    }
  }

  lemma Refutes(lists: set<seq<string>>, row: Row, first: Op, second: Op, matches: Regex)
    requires first.DetectOp? && first.source.upstream.Some? && Sees(first, lists) && Sees(second, lists)
    requires !Staged(Do(Do(row, first, matches), second, matches))
    ensures !AlwaysStaged(lists, matches)
  {
    var ops := [first, second];
    RunOfTwo(row, first, second, matches);
    assert StartsByDetecting(ops, lists) && !Staged(Run(row, ops, matches));
  }

  lemma UnstagedFrom(lists: set<seq<string>>, row: Row, source: Source, matches: Regex, x: string, y: string)
    requires source.upstream.Some? && source.upstream.value in lists
    requires x in Detect(row, source, matches, false, 0).pendingAdd
             && y in Detect(row, source, matches, false, 0).pendingAdd
    requires y in Parts(x) && y != x
    ensures !AlwaysStaged(lists, matches)
  {
    DetectStages(row, source, matches, false, 0);
    FallsApart(Detect(row, source, matches, false, 0), x, y, 0);
    Refutes(lists, row, DetectOp(source, false, 0), ApplyOp([x], [], [], 0), matches);
  }

  lemma {:induction false} Unstaged(lists: set<seq<string>>, up: seq<string>, matches: Regex)
    requires up in lists && !Separate(Normalize(up))
    ensures !AlwaysStaged(lists, matches)
  {
    var x, y :| x in Normalize(up) && y in Normalize(up) && y in Parts(x) && y != x;
    var row, source := Row("", [], [], [], 0), Source(Some(up), map[]);
    FirstDetect(up, matches, x);
    FirstDetect(up, matches, y);
    UnstagedFrom(lists, row, source, matches, x, y);
  }

  /** In every run that starts with a successful detection, whatever was stored before it, the staged changes
      always fit the channel, exactly when no provider list has a name that falls apart into another one. */
  lemma AlwaysStagedIffSeparate(lists: set<seq<string>>, matches: Regex)
    ensures AlwaysStaged(lists, matches) <==> AllSeparate(lists)
  {
    if AllSeparate(lists) {
      forall row: Row, ops: seq<Op> | StartsByDetecting(ops, lists) ensures Staged(Run(row, ops, matches)) {
        RunStages(row, ops, matches, lists);
      }
    } else {
      var up :| up in lists && !Separate(Normalize(up));
      Unstaged(lists, up, matches);
    }
  }

  ghost predicate AllPlain(names: seq<string>) { forall x :: x in names ==> TextList.Plain(x, ',') }

  /** Names without a comma are always separate. */
  lemma PlainIsSeparate(names: seq<string>)
    requires Clean(names) && AllPlain(names)
    ensures Separate(names)
  {
    forall x | x in names ensures Parts(x) == [x] {
      PlainParts(x);
    }
  }

  ghost predicate PlainLists(lists: set<seq<string>>) { forall up :: up in lists ==> AllPlain(Normalize(up)) }

  /** In particular with comma-free provider lists. */
  lemma PlainIsAlwaysStaged(lists: set<seq<string>>, matches: Regex)
    requires PlainLists(lists)
    ensures AlwaysStaged(lists, matches)
  {
    forall up | up in lists ensures Separate(Normalize(up)) {
      NormalizeIsClean(up);
      PlainIsSeparate(Normalize(up));
    }
    AlwaysStagedIffSeparate(lists, matches);
  }

  /** Merging names that are all new grows the list by exactly those names. */
  lemma MergeGrows(base: seq<string>, add: seq<string>)
    requires Clean(base) && Clean(add) && forall x :: x in add ==> x !in base
    ensures Merge(base, add) == base + add
  {
    MergeAppends(base, add);
    NormalizeClean(base);
    NormalizeClean(add);
    KeepAll(add, Outside(base));
  }

  /** Everything auto-sync adopts is new to the channel. */
  lemma AutoAddIsNew(row: Row, source: Source, matches: Regex)
    requires source.upstream.Some?
    ensures var add := PendingAdd(GetModels(row.models), source.upstream.value, row.ignored, source.mapping, matches);
            Merge(LocalOf(row), add) == LocalOf(row) + add
  {
    var models := GetModels(row.models);
    var add := PendingAdd(models, source.upstream.value, row.ignored, source.mapping, matches);
    NormalizeIsClean(models);
    PendingAddMeans(models, source.upstream.value, row.ignored, source.mapping, matches, "");
    forall x | x in add ensures x !in LocalOf(row) {
      PendingAddMeans(models, source.upstream.value, row.ignored, source.mapping, matches, x);
    }
    MergeGrows(LocalOf(row), add);
  }

  // ----- the column and the ignore list -----

  lemma {:induction false} JoinIsClean(names: seq<string>)
    requires Clean(names) && AllPlain(names)
    ensures Clean(GetModels(TextList.Join(names, ',')))
  {
    if names != [] {
      assert forall i :: 0 <= i < |names| ==> TextList.Plain(names[i], ',');
      TextList.CleanNeedsNoTrim(names, ',');
      TextList.SplitJoin(names, ',');
    }
  }

  /** Applying leaves a clean ignore list, whatever was stored. */
  lemma ApplyCleansIgnored(row: Row, add: seq<string>, ignore: seq<string>, remove: seq<string>, now: int)
    ensures Clean(Apply(row, add, ignore, remove, now).ignored)
  {
    var chosen := Intersect(add, Normalize(row.pendingAdd));
    var merged := Merge(row.ignored, Intersect(ignore, Normalize(row.pendingAdd)));
    NormalizeIsClean(row.ignored + Intersect(ignore, Normalize(row.pendingAdd)));
    SubtractMeans(merged, chosen, "");
  }

  /** The column holds clean names, and only plain names wait to be added to it. */
  ghost predicate CleanColumn(row: Row) { Clean(GetModels(row.models)) && AllPlain(Normalize(row.pendingAdd)) }

  lemma LocalIsAllPlain(row: Row)
    ensures AllPlain(LocalOf(row))
  {
    forall x | x in LocalOf(row) ensures TextList.Plain(x, ',') {
      LocalIsPlain(row.models, x);
    }
  }

  /** The names after a selection, whatever is stored. */
  lemma NextMeans(row: Row, addInput: seq<string>, removeInput: seq<string>, x: string)
    ensures var add := Intersect(addInput, Normalize(row.pendingAdd));
            var remove := Subtract(Intersect(removeInput, Normalize(row.pendingRemove)), add);
            var next := ApplySelected(LocalOf(row), add, remove);
            && (x in LocalOf(row) && x !in Normalize(row.pendingRemove) ==> x in next)
            && (x in next ==> x in LocalOf(row) || x in Normalize(row.pendingAdd))
  {
    var pendingAdd, pendingRemove := Normalize(row.pendingAdd), Normalize(row.pendingRemove);
    var add, chosen := Intersect(addInput, pendingAdd), Intersect(removeInput, pendingRemove);
    NormalizeTwice(row.pendingAdd);
    NormalizeTwice(row.pendingRemove);
    NormalizeTwice(GetModels(row.models));
    IntersectMeans(addInput, pendingAdd, x);
    IntersectMeans(removeInput, pendingRemove, x);
    SubtractMeans(chosen, add, x);
    NormalizeClean(add);
    NormalizeClean(chosen);
    NormalizeClean(Subtract(chosen, add));
    ApplySelectedMeans(LocalOf(row), add, Subtract(chosen, add), x);
  }

  /** Applying only takes names off the pending lists. */
  lemma ApplyShrinks(row: Row, addInput: seq<string>, ignoreInput: seq<string>, removeInput: seq<string>, now: int,
                     x: string)
    ensures var row' := Apply(row, addInput, ignoreInput, removeInput, now);
            && (x in Normalize(row'.pendingAdd) ==> x in Normalize(row.pendingAdd))
            && (x in Normalize(row'.pendingRemove) ==> x in Normalize(row.pendingRemove))
  {
    var pendingAdd, pendingRemove := Normalize(row.pendingAdd), Normalize(row.pendingRemove);
    var add, ignore := Intersect(addInput, pendingAdd), Intersect(ignoreInput, pendingAdd);
    var remove := Subtract(Intersect(removeInput, pendingRemove), add);
    NormalizeTwice(row.pendingAdd);
    NormalizeTwice(row.pendingRemove);
    SubtractMeans(pendingAdd, add + ignore, x);
    SubtractMeans(pendingRemove, remove, x);
    NormalizeClean(Subtract(pendingAdd, add + ignore));
    NormalizeClean(Subtract(pendingRemove, remove));
  }

  lemma ApplyKeepsColumn(row: Row, add: seq<string>, ignore: seq<string>, remove: seq<string>, now: int)
    requires CleanColumn(row)
    ensures CleanColumn(Apply(row, add, ignore, remove, now))
  {
    var row' := Apply(row, add, ignore, remove, now);
    LocalIsAllPlain(row);
    forall x | x in Normalize(row'.pendingAdd) ensures TextList.Plain(x, ',') {
      ApplyShrinks(row, add, ignore, remove, now, x);
    }
    var pendingAdd := Normalize(row.pendingAdd);
    var chosen := Intersect(add, pendingAdd);
    var removed := Subtract(Intersect(remove, Normalize(row.pendingRemove)), chosen);
    var next := ApplySelected(LocalOf(row), chosen, removed);
    ApplySelectedMeans(LocalOf(row), chosen, removed, "");
    forall x | x in next ensures TextList.Plain(x, ',') {
      NextMeans(row, add, remove, x);
    }
    JoinIsClean(next);
  }

  lemma DetectKeepsColumn(row: Row, source: Source, matches: Regex, adopt: bool, now: int)
    requires Clean(GetModels(row.models)) && source.upstream.Some? && AllPlain(Normalize(source.upstream.value))
    ensures CleanColumn(Detect(row, source, matches, adopt, now))
  {
    var models := GetModels(row.models);
    var add := PendingAdd(models, source.upstream.value, row.ignored, source.mapping, matches);
    PendingAddMeans(models, source.upstream.value, row.ignored, source.mapping, matches, "");
    forall x | x in add ensures TextList.Plain(x, ',') {
      PendingAddMeans(models, source.upstream.value, row.ignored, source.mapping, matches, x);
    }
    NormalizeClean(add);
    if adopt && add != [] {
      AutoAddIsNew(row, source, matches);
      LocalIsAllPlain(row);
      MergeMeans(LocalOf(row), add, "");
      JoinIsClean(LocalOf(row) + add);
    }
  }

  lemma DoKeepsColumn(row: Row, op: Op, matches: Regex, lists: set<seq<string>>)
    requires Sees(op, lists) && PlainLists(lists) && Clean(GetModels(row.models))
    requires CleanColumn(row) || (op.DetectOp? && op.source.upstream.Some?)
    ensures CleanColumn(Do(row, op, matches))
  {
    match op {
      case DetectOp(source, adopt, now) =>
        if source.upstream.Some? {
          DetectKeepsColumn(row, source, matches, adopt, now);
        }
      case ApplyOp(add, ignore, remove, now) => ApplyKeepsColumn(row, add, ignore, remove, now);
      case ApplyAllOp(now) => ApplyKeepsColumn(row, Normalize(row.pendingAdd), [], Normalize(row.pendingRemove), now);
      case StoreFails =>
    }
  }

  lemma DoKeepsIgnored(row: Row, op: Op, matches: Regex)
    ensures Clean(row.ignored) || op.ApplyOp? ==> Clean(Do(row, op, matches).ignored)
  {
    if op.ApplyOp? {
      ApplyCleansIgnored(row, op.add, op.ignore, op.remove, op.now);
    } else if op.ApplyAllOp? {
      ApplyCleansIgnored(row, Normalize(row.pendingAdd), [], Normalize(row.pendingRemove), op.now);
    }
  }

  lemma {:induction false} RunKeepsIgnored(row: Row, ops: seq<Op>, matches: Regex)
    requires Clean(row.ignored)
    ensures Clean(Run(row, ops, matches).ignored)
    decreases |ops|
  {
    if ops != [] {
      DoKeepsIgnored(row, ops[0], matches);
      RunKeepsIgnored(Do(row, ops[0], matches), ops[1..], matches);
    }
  }

  /** From the first apply of a run on, the ignore list is trimmed, non-empty-named and duplicate free. */
  lemma {:induction false} RunCleansIgnored(row: Row, ops: seq<Op>, matches: Regex, i: nat)
    requires i < |ops| && ops[i].ApplyOp?
    ensures Clean(Run(row, ops, matches).ignored)
    decreases |ops|
  {
    DoKeepsIgnored(row, ops[0], matches);
    if i == 0 {
      RunKeepsIgnored(Do(row, ops[0], matches), ops[1..], matches);
    } else {
      RunCleansIgnored(Do(row, ops[0], matches), ops[1..], matches, i - 1);
    }
  }

  /** Over every run that starts with a successful detection, with comma-free provider lists, a column of trimmed,
      non-empty, distinct names stays one. */
  lemma {:induction false} RunStaysClean(row: Row, ops: seq<Op>, matches: Regex, lists: set<seq<string>>)
    requires PlainLists(lists) && forall i :: 0 <= i < |ops| ==> Sees(ops[i], lists)
    requires Clean(GetModels(row.models)) && (CleanColumn(row) || StartsByDetecting(ops, lists))
    ensures Clean(GetModels(Run(row, ops, matches).models))
    decreases |ops|
  {
    if ops != [] {
      DoKeepsColumn(row, ops[0], matches, lists);
      RunStaysClean(Do(row, ops[0], matches), ops[1..], matches, lists);
    }
  }

  /** Over all runs that start with a successful detection, a clean column stays clean. */
  ghost predicate ColumnStaysClean(lists: set<seq<string>>, matches: Regex) {
    forall row: Row, ops: seq<Op> | StartsByDetecting(ops, lists) && Clean(GetModels(row.models)) ::
      Clean(GetModels(Run(row, ops, matches).models))
  }

  lemma SingleModel(x: string)
    requires IsName(x) && TextList.Plain(x, ',')
    ensures GetModels(x) == [x] && Local(x) == [x]
  {
    assert x[0] in x && x[|x| - 1] in x;
    TextList.SplitOne(x, ',');
    NormalizeClean([x]);
  }

  /** Behind its own first part, a name with a comma gives a duplicate or an empty model. */
  lemma BehindFirst(y: string, x: string)
    requires y != "" && Clean(GetModels(y)) && x == GetModels(y)[0]
    ensures TextList.Plain(x, ',') && !Clean(GetModels(x + [','] + y))
  {
    TextList.SplitGivesPlain(TextList.Trim(y, ','), 0, ',');
    TextList.ReadBehindFirst(y, ',');
    var items := GetModels(x + [','] + y);
    assert items[1] == items[0] || !IsName(items[1]);
  }

  /** A row to which a name with a comma must not be added: an empty one, or one that holds its first part. */
  lemma SpoiledRow(y: string) returns (row: Row, names: seq<string>)
    requires !TextList.Plain(y, ',')
    ensures row == Row(row.models, [], [], [], 0) && names == LocalOf(row) + [y]
    ensures Clean(GetModels(row.models)) && !Clean(GetModels(TextList.Join(names, ',')))
  {
    if !Clean(GetModels(y)) {
      row, names := Row("", [], [], [], 0), [y];
      assert LocalOf(row) + [y] == [y];
    } else {
      var x := GetModels(y)[0];
      row, names := Row(x, [], [], [], 0), [x, y];
      BehindFirst(y, x);
      SingleModel(x);
      assert [x] + [y] == [x, y] && [x, y][1..] == [y];
      assert TextList.Join(names, ',') == x + [','] + y;
    }
  }

  /** Selecting one new pending name puts it behind the others. */
  lemma {:induction false} ApplyOneNew(row: Row, y: string, now: int, names: seq<string>)
    requires Clean([y]) && y in Normalize(row.pendingAdd) && y !in LocalOf(row) && names == LocalOf(row) + [y]
    ensures Apply(row, [y], [], [], now).models == TextList.Join(names, ',')
  {
    var pending := Normalize(row.pendingAdd);
    NormalizeIsClean(row.pendingAdd);
    NormalizeIsClean(GetModels(row.models));
    NormalizeClean(pending);
    NormalizeClean([y]);
    KeepAll([y], Inside(pending));
    assert Intersect([y], pending) == [y];
    MergeGrows(LocalOf(row), [y]);
    MergeMeans(LocalOf(row), [y], "");
    NormalizeClean(names);
    var remove := Subtract(Intersect([], Normalize(row.pendingRemove)), [y]);
    assert remove == [];
    KeepAll(names, Outside([]));
  }

  /** A name with a comma is new to the channel, and pending after a detection. */
  lemma {:induction false} CommaIsPending(row: Row, up: seq<string>, y: string, matches: Regex)
    requires row == Row(row.models, [], [], [], 0) && y in Normalize(up) && !TextList.Plain(y, ',')
    ensures var row' := Detect(row, Source(Some(up), map[]), matches, false, 0);
            row'.models == row.models && Clean([y]) && y in Normalize(row'.pendingAdd) && y !in LocalOf(row)
  {
    NormalizeIsClean(up);
    if y in LocalOf(row) {
      LocalIsPlain(row.models, y);
    }
    PendingAddMeans(GetModels(row.models), up, [], map[], matches, y);
    NormalizeClean(PendingAdd(GetModels(row.models), up, [], map[], matches));
  }

  /** Detecting and then selecting it puts it behind the models. */
  lemma {:induction false} DetectAndAdd(row: Row, lists: set<seq<string>>, up: seq<string>, y: string,
                                        names: seq<string>, matches: Regex)
    returns (ops: seq<Op>)
    requires row == Row(row.models, [], [], [], 0) && names == LocalOf(row) + [y]
    requires up in lists && y in Normalize(up) && !TextList.Plain(y, ',')
    ensures StartsByDetecting(ops, lists) && Run(row, ops, matches).models == TextList.Join(names, ',')
  {
    var first, second := DetectOp(Source(Some(up), map[]), false, 0), ApplyOp([y], [], [], 0);
    CommaIsPending(row, up, y, matches);
    ApplyOneNew(Detect(row, first.source, matches, false, 0), y, 0, names);
    RunOfTwo(row, first, second, matches);
    ops := [first, second];
  }

  lemma {:induction false} NotClean(lists: set<seq<string>>, row: Row, ops: seq<Op>, column: string, matches: Regex)
    requires StartsByDetecting(ops, lists) && Run(row, ops, matches).models == column
    requires Clean(GetModels(row.models)) && !Clean(GetModels(column))
    ensures !ColumnStaysClean(lists, matches)
  {
  }

  /** A provider name with a comma spoils some clean column. */
  lemma {:induction false} CommaSpoils(lists: set<seq<string>>, up: seq<string>, y: string, matches: Regex)
    requires up in lists && y in Normalize(up) && !TextList.Plain(y, ',')
    ensures !ColumnStaysClean(lists, matches)
  {
    var row, names := SpoiledRow(y);
    var ops := DetectAndAdd(row, lists, up, y, names, matches);
    NotClean(lists, row, ops, TextList.Join(names, ','), matches);
  }

  /** Over every run that starts with a successful detection, a column of trimmed, non-empty, distinct names stays one,
      if and only if no provider name has a comma. */
  lemma StaysCleanIffPlain(lists: set<seq<string>>, matches: Regex)
    ensures ColumnStaysClean(lists, matches) <==> PlainLists(lists)
  {
    if PlainLists(lists) {
      forall row: Row, ops: seq<Op> | StartsByDetecting(ops, lists) && Clean(GetModels(row.models))
        ensures Clean(GetModels(Run(row, ops, matches).models))
      {
        RunStaysClean(row, ops, matches, lists);
      }
    } else {
      var up, y :| up in lists && y in Normalize(up) && !TextList.Plain(y, ',');
      CommaSpoils(lists, up, y, matches);
    }
  }

  // ----- any row: what an apply keeps and brings -----

  lemma NextIsNames(row: Row, addInput: seq<string>, removeInput: seq<string>)
    ensures var add := Intersect(addInput, Normalize(row.pendingAdd));
            var remove := Subtract(Intersect(removeInput, Normalize(row.pendingRemove)), add);
            forall y :: y in ApplySelected(LocalOf(row), add, remove) ==> IsName(y)
  {
    var add := Intersect(addInput, Normalize(row.pendingAdd));
    ApplySelectedMeans(LocalOf(row), add, Subtract(Intersect(removeInput, Normalize(row.pendingRemove)), add), "");
  }

  /** A model that is not pending for removal stays; a new model is a part of one pending for addition. */
  lemma ApplyKeepsAndBrings(row: Row, addInput: seq<string>, ignoreInput: seq<string>, removeInput: seq<string>,
                            now: int, x: string)
    ensures var row' := Apply(row, addInput, ignoreInput, removeInput, now);
            && (x in LocalOf(row) && x !in Normalize(row.pendingRemove) ==> x in LocalOf(row'))
            && (x in LocalOf(row') && x !in LocalOf(row) ==> SomePart(Normalize(row.pendingAdd), x))
  {
    var add := Intersect(addInput, Normalize(row.pendingAdd));
    var remove := Subtract(Intersect(removeInput, Normalize(row.pendingRemove)), add);
    var next := ApplySelected(LocalOf(row), add, remove);
    NextMeans(row, addInput, removeInput, x);
    NextIsNames(row, addInput, removeInput);
    JoinedModels(row, next, x);
    if y :| y in next && y !in LocalOf(row) && x in Parts(y) {
      NextMeans(row, addInput, removeInput, y);
    }
  }

  // ----- detecting, applying everything and detecting again -----

  /** A provider model that only ignore entries hide which are themselves about to be added. */
  ghost predicate Hole(row: Row, source: Source, matches: Regex, add: seq<string>, x: string)
    requires source.upstream.Some?
  {
    && x in Normalize(source.upstream.value) && x !in LocalOf(row) && x !in source.mapping.Values
    && IgnoredBy(Normalize(row.ignored), x, matches)
    && forall entry :: entry in Normalize(row.ignored) && Ignores(entry, x, matches) ==> entry in add
  }

  /** Applying everything takes the added names off the ignore list and changes nothing else on it. */
  lemma IgnoredAfter(row: Row, now: int, e: string)
    requires Staged(row)
    ensures e in Normalize(ApplyAll(row, now).ignored) <==> e in Normalize(row.ignored) && e !in row.pendingAdd
  {
    var add := row.pendingAdd;
    NormalizeClean(add);
    NormalizeClean(row.pendingRemove);
    SelectedSets(row, add, row.pendingRemove, e);
    forall x ensures x in Intersect(add, add) <==> x in add {
      SelectedSets(row, add, row.pendingRemove, x);
    }
    IntersectMeans([], add, "");
    assert Intersect([], add) == [];
    var ignored := Merge(row.ignored, []);
    MergeMeans(row.ignored, [], e);
    NormalizeClean(ignored);
    NormalizeClean(Intersect(add, add));
    SubtractMeans(ignored, Intersect(add, add), e);
    NormalizeClean(Subtract(ignored, Intersect(add, add)));
    if add == [] {
      assert Intersect(add, add) == [];
    }
  }

  lemma IgnoredByAfter(row: Row, now: int, x: string, matches: Regex)
    requires Staged(row)
    ensures IgnoredBy(Normalize(ApplyAll(row, now).ignored), x, matches) <==>
            exists entry :: entry in Normalize(row.ignored) && Ignores(entry, x, matches) && entry !in row.pendingAdd
  {
    forall e
      ensures e in Normalize(ApplyAll(row, now).ignored) <==> e in Normalize(row.ignored) && e !in row.pendingAdd
    {
      IgnoredAfter(row, now, e);
    }
  }

  /** The models after everything staged was applied. */
  lemma ModelsAfterAll(row: Row, now: int, x: string)
    requires Staged(row)
    ensures x in LocalOf(ApplyAll(row, now)) <==>
            (exists y :: y in row.pendingAdd && x in Parts(y)) || (x in LocalOf(row) && x !in row.pendingRemove)
  {
    NormalizeClean(row.pendingAdd);
    NormalizeClean(row.pendingRemove);
    ApplyModels(row, row.pendingAdd, [], row.pendingRemove, now);
  }

  /** What the second detection stages: the names that the column could not hold, and the holes that no
      added name covers. */
  lemma AddedAgain(row: Row, source: Source, matches: Regex, t1: int, t2: int, t3: int, x: string)
    requires source.upstream.Some?
    ensures var row1 := Detect(row, source, matches, false, t1);
            x in Detect(ApplyAll(row1, t2), source, matches, false, t3).pendingAdd <==>
              || (x in row1.pendingAdd && !TextList.Plain(x, ','))
              || (Hole(row, source, matches, row1.pendingAdd, x)
                    && forall y :: y in row1.pendingAdd ==> x !in Parts(y))
  {
    var up := source.upstream.value;
    var row1 := Detect(row, source, matches, false, t1);
    var row2 := ApplyAll(row1, t2);
    DetectStages(row, source, matches, false, t1);
    PendingAddMeans(GetModels(row.models), up, row.ignored, source.mapping, matches, x);
    PendingAddMeans(GetModels(row2.models), up, row2.ignored, source.mapping, matches, x);
    PendingRemoveMeans(GetModels(row.models), up, source.mapping, x);
    ModelsAfterAll(row1, t2, x);
    IgnoredByAfter(row1, t2, x, matches);
    if x in LocalOf(row2) {
      LocalIsPlain(row2.models, x);
    }
    if x in row1.pendingAdd && TextList.Plain(x, ',') {
      PlainParts(x);
    }
  }

  /** What the second detection wants to remove: only pieces of names that the column could not hold. */
  lemma RemovedAgain(row: Row, source: Source, matches: Regex, t1: int, t2: int, t3: int, x: string)
    requires source.upstream.Some?
    ensures var row1 := Detect(row, source, matches, false, t1);
            x in Detect(ApplyAll(row1, t2), source, matches, false, t3).pendingRemove ==>
              exists y :: y in row1.pendingAdd && !TextList.Plain(y, ',')
  {
    var up := source.upstream.value;
    var row1 := Detect(row, source, matches, false, t1);
    var row2 := ApplyAll(row1, t2);
    DetectStages(row, source, matches, false, t1);
    PendingRemoveMeans(GetModels(row.models), up, source.mapping, x);
    PendingRemoveMeans(GetModels(row2.models), up, source.mapping, x);
    ModelsAfterAll(row1, t2, x);
    if y :| y in row1.pendingAdd && x in Parts(y) && TextList.Plain(y, ',') {
      PlainParts(y);
    }
  }

  lemma AddedIsNoHole(row: Row, source: Source, matches: Regex, t1: int, x: string)
    requires source.upstream.Some?
    ensures var add := Detect(row, source, matches, false, t1).pendingAdd;
            Hole(row, source, matches, add, x) ==> x !in add
  {
    PendingAddMeans(GetModels(row.models), source.upstream.value, row.ignored, source.mapping, matches, x);
  }

  /** After detecting and applying everything, a second detection against the same provider finds nothing,
      exactly when every added name is free of commas and there is no hole. */
  lemma SettlesIff(row: Row, source: Source, matches: Regex, t1: int, t2: int, t3: int)
    requires source.upstream.Some?
    ensures var row1 := Detect(row, source, matches, false, t1);
            var row3 := Detect(ApplyAll(row1, t2), source, matches, false, t3);
            row3.pendingAdd == [] && row3.pendingRemove == [] <==>
              AllPlain(row1.pendingAdd) && forall x :: !Hole(row, source, matches, row1.pendingAdd, x)
  {
    var row1 := Detect(row, source, matches, false, t1);
    var row3 := Detect(ApplyAll(row1, t2), source, matches, false, t3);
    DetectStages(row, source, matches, false, t1);
    forall x
      ensures x in row3.pendingAdd <==>
                || (x in row1.pendingAdd && !TextList.Plain(x, ','))
                || (Hole(row, source, matches, row1.pendingAdd, x)
                    && forall y :: y in row1.pendingAdd ==> x !in Parts(y))
      ensures x in row3.pendingRemove ==> exists y :: y in row1.pendingAdd && !TextList.Plain(y, ',')
    {
      AddedAgain(row, source, matches, t1, t2, t3, x);
      RemovedAgain(row, source, matches, t1, t2, t3, x);
    }
    if AllPlain(row1.pendingAdd) {
      forall x, y | Hole(row, source, matches, row1.pendingAdd, x) && y in row1.pendingAdd ensures x !in Parts(y) {
        PlainParts(y);
        AddedIsNoHole(row, source, matches, t1, x);
      }
    }
    assert row3.pendingAdd != [] ==> row3.pendingAdd[0] in row3.pendingAdd;
    assert row3.pendingRemove != [] ==> row3.pendingRemove[0] in row3.pendingRemove;
  }

  /** When no provider model starts with "regex:" there is no hole; with comma-free names, detecting and applying
      everything therefore settles the channel, and applying again changes nothing. */
  lemma Settles(row: Row, source: Source, matches: Regex, t1: int, t2: int, t3: int, t4: int)
    requires source.upstream.Some?
    requires forall x :: x in Normalize(source.upstream.value) ==> TextList.Plain(x, ',') && !HasRegexPrefix(x)
    ensures var row3 := Detect(ApplyAll(Detect(row, source, matches, false, t1), t2), source, matches, false, t3);
            row3.pendingAdd == [] && row3.pendingRemove == [] && ApplyAll(row3, t4) == row3
  {
    var add := Detect(row, source, matches, false, t1).pendingAdd;
    DetectStages(row, source, matches, false, t1);
    forall x ensures !Hole(row, source, matches, add, x) {
      AddedIsNoHole(row, source, matches, t1, x);
    }
    SettlesIff(row, source, matches, t1, t2, t3);
  }

  // ----- redirects -----

  /** New names behind the channel's own: those stay, and the new ones fall apart. */
  lemma {:induction false} JoinedBehind(row: Row, add: seq<string>, names: seq<string>, x: string)
    requires names == LocalOf(row) + add && forall y :: y in add ==> IsName(y) && y !in LocalOf(row)
    ensures x in Local(TextList.Join(names, ',')) <==> x in LocalOf(row) || SomePart(add, x)
  {
    NormalizeIsClean(GetModels(row.models));
    JoinedModels(row, names, x);
    if y :| y in add && x in Parts(y) {
      var i :| 0 <= i < |add| && add[i] == y;
      assert x in Parts(add[i]);
    }
  }

  /** Pending names are names that the channel does not have. */
  lemma PendingIsNew(row: Row, source: Source, matches: Regex, y: string)
    requires source.upstream.Some?
    ensures y in PendingAdd(GetModels(row.models), source.upstream.value, row.ignored, source.mapping, matches) ==>
              IsName(y) && y !in LocalOf(row)
  {
    PendingAddMeans(GetModels(row.models), source.upstream.value, row.ignored, source.mapping, matches, y);
  }

  /** Adopted names are joined into the column. */
  lemma {:induction false} Adopted(row: Row, source: Source, matches: Regex, now: int, add: seq<string>,
                                   names: seq<string>)
    requires source.upstream.Some? && add != []
    requires add == PendingAdd(GetModels(row.models), source.upstream.value, row.ignored, source.mapping, matches)
    requires names == Merge(LocalOf(row), add) && |names| > |LocalOf(row)|
    ensures Detect(row, source, matches, true, now).models == TextList.Join(names, ',')
  {
  }

  /** Detection removes no model; what it adopts as new is a part of a pending name. */
  lemma DetectKeepsAndBrings(row: Row, source: Source, matches: Regex, adopt: bool, now: int, x: string)
    requires source.upstream.Some?
    ensures var row' := Detect(row, source, matches, adopt, now);
            var add := PendingAdd(GetModels(row.models), source.upstream.value, row.ignored, source.mapping, matches);
            && (x in LocalOf(row) ==> x in LocalOf(row'))
            && (x in LocalOf(row') && x !in LocalOf(row) ==> SomePart(add, x))
  {
    var add := PendingAdd(GetModels(row.models), source.upstream.value, row.ignored, source.mapping, matches);
    if adopt && add != [] {
      AutoAddIsNew(row, source, matches);
      var names := LocalOf(row) + add;
      Adopted(row, source, matches, now, add, names);
      forall y | y in add ensures IsName(y) && y !in LocalOf(row) {
        PendingIsNew(row, source, matches, y);
      }
      JoinedBehind(row, add, names, x);
    }
  }

  lemma PartsOfPlain(names: seq<string>, x: string)
    requires Clean(names) && AllPlain(names)
    ensures SomePart(names, x) <==> x in names
  {
    forall i | 0 <= i < |names| ensures Parts(names[i]) == [names[i]] {
      PlainParts(names[i]);
    }
  }

  lemma PlainPending(row: Row, source: Source, matches: Regex, pending: seq<string>)
    requires source.upstream.Some? && AllPlain(Normalize(source.upstream.value))
    requires pending == PendingAdd(GetModels(row.models), source.upstream.value, row.ignored, source.mapping, matches)
    ensures Clean(pending) && AllPlain(pending)
  {
    PendingAddMeans(GetModels(row.models), source.upstream.value, row.ignored, source.mapping, matches, "");
    forall x | x in pending ensures TextList.Plain(x, ',') {
      PendingAddMeans(GetModels(row.models), source.upstream.value, row.ignored, source.mapping, matches, x);
    }
  }

  /** After a detection and any one selection: redirect sources stay. With comma-free provider names every new model
      is a provider model that is neither a redirect target nor ignored. */
  lemma RedirectsAreKept(row: Row, source: Source, matches: Regex, adopt: bool, t1: int,
                         add: seq<string>, ignore: seq<string>, remove: seq<string>, t2: int, x: string)
    requires source.upstream.Some?
    ensures var row2 := Apply(Detect(row, source, matches, adopt, t1), add, ignore, remove, t2);
            && (x in LocalOf(row) && x in source.mapping.Keys ==> x in LocalOf(row2))
            && (AllPlain(Normalize(source.upstream.value)) && x in LocalOf(row2) && x !in LocalOf(row) ==>
                  x in Normalize(source.upstream.value) && x !in source.mapping.Values &&
                  !IgnoredBy(Normalize(row.ignored), x, matches))
  {
    var row1, models := Detect(row, source, matches, adopt, t1), GetModels(row.models);
    var pending := PendingAdd(models, source.upstream.value, row.ignored, source.mapping, matches);
    DetectStages(row, source, matches, adopt, t1);
    DetectKeepsAndBrings(row, source, matches, adopt, t1, x);
    ApplyKeepsAndBrings(row1, add, ignore, remove, t2, x);
    NormalizeClean(row1.pendingAdd);
    NormalizeClean(row1.pendingRemove);
    PendingRemoveMeans(models, source.upstream.value, source.mapping, x);
    PendingAddMeans(models, source.upstream.value, row.ignored, source.mapping, matches, x);
    if AllPlain(Normalize(source.upstream.value)) {
      PlainPending(row, source, matches, pending);
      PartsOfPlain(pending, x);
    }
  }

  predicate Mapped(ops: seq<Op>, mapping: map<string, string>) {
    forall i :: 0 <= i < |ops| && ops[i].DetectOp? ==> ops[i].source.mapping == mapping
  }

  predicate Detects(op: Op) { op.DetectOp? && op.source.upstream.Some? }

  /** No redirect source waits to be removed. */
  ghost predicate SourcesSafe(row: Row, mapping: map<string, string>) {
    forall x :: x in mapping.Keys ==> x !in Normalize(row.pendingRemove)
  }

  lemma SourceNotPending(row: Row, op: Op, matches: Regex, mapping: map<string, string>, y: string)
    requires (op.DetectOp? ==> op.source.mapping == mapping) && (y !in Normalize(row.pendingRemove) || Detects(op))
    requires y in mapping.Keys
    ensures y !in Normalize(Do(row, op, matches).pendingRemove)
  {
    match op {
      case DetectOp(source, adopt, now) =>
        if source.upstream.Some? {
          PendingRemoveMeans(GetModels(row.models), source.upstream.value, mapping, y);
          NormalizeClean(PendingRemove(GetModels(row.models), source.upstream.value, mapping));
        }
      case ApplyOp(add, ignore, remove, now) => ApplyShrinks(row, add, ignore, remove, now, y);
      case ApplyAllOp(now) => ApplyShrinks(row, Normalize(row.pendingAdd), [], Normalize(row.pendingRemove), now, y);
      case StoreFails =>
    }
  }

  lemma DoKeepsSources(row: Row, op: Op, matches: Regex, mapping: map<string, string>, x: string)
    requires (op.DetectOp? ==> op.source.mapping == mapping) && (SourcesSafe(row, mapping) || Detects(op))
    ensures var row' := Do(row, op, matches);
            SourcesSafe(row', mapping) && (x in mapping.Keys && x in LocalOf(row) ==> x in LocalOf(row'))
  {
    var row' := Do(row, op, matches);
    forall y | y in mapping.Keys ensures y !in Normalize(row'.pendingRemove) {
      SourceNotPending(row, op, matches, mapping, y);
    }
    match op {
      case DetectOp(source, adopt, now) =>
        if source.upstream.Some? {
          DetectKeepsAndBrings(row, source, matches, adopt, now, x);
        }
      case ApplyOp(add, ignore, remove, now) => ApplyKeepsAndBrings(row, add, ignore, remove, now, x);
      case ApplyAllOp(now) =>
        ApplyKeepsAndBrings(row, Normalize(row.pendingAdd), [], Normalize(row.pendingRemove), now, x);
      case StoreFails =>
    }
  }

  /** Under a fixed redirect map, over every run that starts with a successful detection, a redirect source that the
      channel has is never removed. */
  lemma {:induction false} SourcesStay(row: Row, ops: seq<Op>, matches: Regex, mapping: map<string, string>, x: string)
    requires Mapped(ops, mapping) && (SourcesSafe(row, mapping) || (ops != [] && Detects(ops[0])))
    requires x in mapping.Keys && x in LocalOf(row)
    ensures x in LocalOf(Run(row, ops, matches))
    decreases |ops|
  {
    if ops != [] {
      DoKeepsSources(row, ops[0], matches, mapping, x);
      SourcesStay(Do(row, ops[0], matches), ops[1..], matches, mapping, x);
    }
  }

  /** None of the names falls apart into a redirect target. */
  ghost predicate TargetFree(names: seq<string>, mapping: map<string, string>) {
    forall x :: x in mapping.Values ==> !SomePart(names, x)
  }

  /** No provider name, unless it is a target itself, falls apart into a redirect target. */
  ghost predicate TargetsSafe(lists: set<seq<string>>, mapping: map<string, string>) {
    forall up, y, x :: up in lists && y in Normalize(up) && y !in mapping.Values && x in mapping.Values ==>
      x !in Parts(y)
  }

  lemma DetectIsTargetFree(row: Row, source: Source, matches: Regex, lists: set<seq<string>>)
    requires source.upstream.Some? && source.upstream.value in lists && TargetsSafe(lists, source.mapping)
    ensures TargetFree(PendingAdd(GetModels(row.models), source.upstream.value, row.ignored, source.mapping, matches),
                       source.mapping)
  {
    var add := PendingAdd(GetModels(row.models), source.upstream.value, row.ignored, source.mapping, matches);
    forall x | x in source.mapping.Values ensures !SomePart(add, x) {
      forall i | 0 <= i < |add| ensures x !in Parts(add[i]) {
        PendingAddMeans(GetModels(row.models), source.upstream.value, row.ignored, source.mapping, matches, add[i]);
      }
    }
  }

  lemma ShrinkIsTargetFree(names: seq<string>, fewer: seq<string>, mapping: map<string, string>)
    requires TargetFree(names, mapping) && forall x :: x in fewer ==> x in names
    ensures TargetFree(fewer, mapping)
  {
    forall x | x in mapping.Values ensures !SomePart(fewer, x) {
      forall i | 0 <= i < |fewer| ensures x !in Parts(fewer[i]) {
        assert fewer[i] in names;
      }
    }
  }

  lemma ApplyIsTargetFree(row: Row, add: seq<string>, ignore: seq<string>, remove: seq<string>, now: int,
                          mapping: map<string, string>)
    requires TargetFree(Normalize(row.pendingAdd), mapping)
    ensures TargetFree(Normalize(Apply(row, add, ignore, remove, now).pendingAdd), mapping)
  {
    var row' := Apply(row, add, ignore, remove, now);
    forall x | x in Normalize(row'.pendingAdd) ensures x in Normalize(row.pendingAdd) {
      ApplyShrinks(row, add, ignore, remove, now, x);
    }
    ShrinkIsTargetFree(Normalize(row.pendingAdd), Normalize(row'.pendingAdd), mapping);
  }

  lemma DoKeepsTargets(row: Row, op: Op, matches: Regex, lists: set<seq<string>>, mapping: map<string, string>,
                       x: string)
    requires Sees(op, lists) && (op.DetectOp? ==> op.source.mapping == mapping) && TargetsSafe(lists, mapping)
    requires (TargetFree(Normalize(row.pendingAdd), mapping) || Detects(op)) && x in mapping.Values
             && x !in LocalOf(row)
    ensures TargetFree(Normalize(Do(row, op, matches).pendingAdd), mapping) && x !in LocalOf(Do(row, op, matches))
  {
    match op {
      case DetectOp(source, adopt, now) =>
        if source.upstream.Some? {
          DetectIsTargetFree(row, source, matches, lists);
          DetectKeepsAndBrings(row, source, matches, adopt, now, x);
          PendingAddMeans(GetModels(row.models), source.upstream.value, row.ignored, mapping, matches, "");
          NormalizeClean(PendingAdd(GetModels(row.models), source.upstream.value, row.ignored, mapping, matches));
        }
      case ApplyOp(add, ignore, remove, now) =>
        ApplyIsTargetFree(row, add, ignore, remove, now, mapping);
        ApplyKeepsAndBrings(row, add, ignore, remove, now, x);
      case ApplyAllOp(now) =>
        ApplyIsTargetFree(row, Normalize(row.pendingAdd), [], Normalize(row.pendingRemove), now, mapping);
        ApplyKeepsAndBrings(row, Normalize(row.pendingAdd), [], Normalize(row.pendingRemove), now, x);
      case StoreFails =>
    }
  }

  lemma {:induction false} TargetsStayOut(row: Row, ops: seq<Op>, matches: Regex, lists: set<seq<string>>,
                                          mapping: map<string, string>, x: string)
    requires TargetsSafe(lists, mapping) && Mapped(ops, mapping) && forall i :: 0 <= i < |ops| ==> Sees(ops[i], lists)
    requires TargetFree(Normalize(row.pendingAdd), mapping) || (ops != [] && Detects(ops[0]))
    requires x in mapping.Values && x !in LocalOf(row)
    ensures x !in LocalOf(Run(row, ops, matches))
    decreases |ops|
  {
    if ops != [] {
      DoKeepsTargets(row, ops[0], matches, lists, mapping, x);
      TargetsStayOut(Do(row, ops[0], matches), ops[1..], matches, lists, mapping, x);
    }
  }

  ghost predicate TargetsNeverAdded(lists: set<seq<string>>, mapping: map<string, string>, matches: Regex) {
    forall row: Row, ops: seq<Op>, x | StartsByDetecting(ops, lists) && Mapped(ops, mapping) && x in mapping.Values &&
                                       x !in LocalOf(row) :: x !in LocalOf(Run(row, ops, matches))
  }

  /** Applying a pending name brings all its parts. */
  lemma ApplyBringsParts(row: Row, y: string, x: string, now: int)
    requires Staged(row) && y in row.pendingAdd && x in Parts(y)
    ensures x in LocalOf(Apply(row, [y], [], [], now))
  {
    NormalizeClean([y]);
    assert y in [y];
    ApplyModels(row, [y], [], [], now);
  }

  lemma {:induction false} WitnessRun(lists: set<seq<string>>, row: Row, ops: seq<Op>, mapping: map<string, string>,
                                      matches: Regex, x: string)
    requires StartsByDetecting(ops, lists) && Mapped(ops, mapping) && x in mapping.Values && x !in LocalOf(row)
    requires x in LocalOf(Run(row, ops, matches))
    ensures !TargetsNeverAdded(lists, mapping, matches)
  {
  }

  lemma TwoOps(lists: set<seq<string>>, first: Op, second: Op, mapping: map<string, string>)
    requires Detects(first) && first.source.mapping == mapping && Sees(first, lists) && second.ApplyOp?
    ensures StartsByDetecting([first, second], lists) && Mapped([first, second], mapping)
  {
  }

  lemma {:induction false} TargetIsAdded(lists: set<seq<string>>, up: seq<string>, mapping: map<string, string>,
                                         matches: Regex, y: string, x: string)
    requires up in lists && y in Normalize(up) && y !in mapping.Values && x in mapping.Values && x in Parts(y)
    ensures !TargetsNeverAdded(lists, mapping, matches)
  {
    var row, source := Row("", [], [], [], 0), Source(Some(up), mapping);
    PendingAddMeans([], up, [], mapping, matches, y);
    DetectStages(row, source, matches, false, 0);
    ApplyBringsParts(Detect(row, source, matches, false, 0), y, x, 0);
    var first, second := DetectOp(source, false, 0), ApplyOp([y], [], [], 0);
    RunOfTwo(row, first, second, matches);
    TwoOps(lists, first, second, mapping);
    WitnessRun(lists, row, [first, second], mapping, matches, x);
  }

  /** Under a fixed redirect map, over every run that starts with a successful detection, no redirect target becomes
      a model, if and only if no other provider name falls apart, at its commas, into one. */
  lemma TargetsNeverAddedIff(lists: set<seq<string>>, mapping: map<string, string>, matches: Regex)
    ensures TargetsNeverAdded(lists, mapping, matches) <==> TargetsSafe(lists, mapping)
  {
    if TargetsSafe(lists, mapping) {
      forall row: Row, ops: seq<Op>, x | StartsByDetecting(ops, lists) && Mapped(ops, mapping) && x in mapping.Values &&
                                         x !in LocalOf(row)
        ensures x !in LocalOf(Run(row, ops, matches))
      {
        TargetsStayOut(row, ops, matches, lists, mapping, x);
      }
    } else {
      var up, y, x :| up in lists && y in Normalize(up) && y !in mapping.Values && x in mapping.Values && x in Parts(y);
      TargetIsAdded(lists, up, mapping, matches, y, x);
    }
  }

  // ----- the code that updates the record -----

  /** What a detection finds to add; nothing when the fetch failed. */
  function Detected(row: Row, source: Source, matches: Regex): seq<string> {
    if source.upstream == None then []
    else PendingAdd(GetModels(row.models), source.upstream.value, row.ignored, source.mapping, matches)
  }

  /** The settings and models that a check leaves, and how many names it adopted. */
  method CheckRow(row: Row, source: Source, matches: Regex, adopt: bool, now: int) returns (row': Row, autoAdded: int)
    ensures row' == Detect(row, source, matches, adopt, now) && row'.ignored == row.ignored
    ensures autoAdded == if adopt then |Detected(row, source, matches)| else 0
    ensures autoAdded <= 0 ==> row'.models == row.models
  {
    row', autoAdded := row.(checkedAt := now), 0;
    if source.upstream == None {
      return;
    }
    var add := PendingAdd(GetModels(row.models), source.upstream.value, row.ignored, source.mapping, matches);
    var remove := PendingRemove(GetModels(row.models), source.upstream.value, source.mapping);
    if adopt && add != [] {
      AutoAddIsNew(row, source, matches);
      var origin := Local(row.models);
      var merged := MergeModelNames(origin, add);
      if |merged| > |origin| {
        row' := row'.(models := TextList.Join(merged, ','));
        autoAdded := |merged| - |origin|;
      }
      row' := row'.(pendingAdd := []);
    } else {
      row' := row'.(pendingAdd := add);
    }
    row' := row'.(pendingRemove := remove);
  }

  /** The settings and models that an apply leaves. */
  method ApplyRow(row: Row, addInput: seq<string>, ignoreInput: seq<string>, removeInput: seq<string>, now: int)
    returns (row': Row, modelsChanged: bool)
    ensures row' == Apply(row, addInput, ignoreInput, removeInput, now)
    ensures !modelsChanged ==> row'.models == row.models
  {
    var pendingAdd, pendingRemove := Normalize(row.pendingAdd), Normalize(row.pendingRemove);
    var add := Intersect(addInput, pendingAdd);
    var ignore := Intersect(ignoreInput, pendingAdd);
    var remove := Subtract(Intersect(removeInput, pendingRemove), add);
    var next := ApplySelected(Local(row.models), add, remove);
    modelsChanged := Local(row.models) != next;
    var ignored := MergeModelNames(row.ignored, ignore);
    if |add| > 0 {
      ignored := Subtract(ignored, add);
    }
    row' := Row(if modelsChanged then TextList.Join(next, ',') else row.models,
                Subtract(pendingAdd, add + ignore), Subtract(pendingRemove, remove), ignored, now);
  }

  /** A channel with its settings as loaded for one request, and the stored row it was loaded from. */
  class ChannelRecord {
    var models: string
    var detected: seq<string>
    var removed: seq<string>
    var ignored: seq<string>
    var lastCheck: int
    var stored: Row

    function Loaded(): Row
      reads this
    {
      Row(models, detected, removed, ignored, lastCheck)
    }

    constructor (row: Row)
      ensures Loaded() == stored == row
    {
      models, detected, removed, ignored, lastCheck := row.models, row.pendingAdd, row.pendingRemove, row.ignored,
        row.checkedAt;
      stored := row;
    }

    /** updateChannelUpstreamModelSettings; `storeOk` is whether the database accepts the update. */
    method Persist(updateModels: bool, storeOk: bool)
      modifies this`stored
      ensures stored == if !storeOk then old(stored)
                        else if updateModels then Loaded() else Loaded().(models := old(stored).models)
    {
      if storeOk {
        stored := Row(if updateModels then models else stored.models, detected, removed, ignored, lastCheck);
      }
    }

    method CheckAndPersist(source: Source, matches: Regex, force: bool, minInterval: int, allowAutoApply: bool,
                           autoSync: bool, now: int, storeOk: bool)
      returns (checked: bool, modelsChanged: bool, autoAdded: int)
      requires Loaded() == stored
      modifies this
      ensures checked <==> force || !(old(lastCheck) > 0 && now - old(lastCheck) < minInterval)
      ensures stored == if checked && storeOk then Detect(old(stored), source, matches, allowAutoApply && autoSync, now)
                        else old(stored)
      ensures checked && storeOk ==> Loaded() == stored
      ensures modelsChanged <==> storeOk && autoAdded > 0
      ensures autoAdded == if checked && allowAutoApply && autoSync then |Detected(old(stored), source, matches)| else 0
    {
      checked, modelsChanged, autoAdded := true, false, 0;
      if !force && lastCheck > 0 && now - lastCheck < minInterval {
        checked := false;
        return;
      }
      var row: Row;
      row, autoAdded := CheckRow(Loaded(), source, matches, allowAutoApply && autoSync, now);
      models, detected, removed, lastCheck := row.models, row.pendingAdd, row.pendingRemove, row.checkedAt;
      Persist(autoAdded > 0, storeOk);
      modelsChanged := autoAdded > 0 && storeOk;
    }

    method ApplyUpdates(addInput: seq<string>, ignoreInput: seq<string>, removeInput: seq<string>, now: int,
                        storeOk: bool)
      returns (modelsChanged: bool)
      requires Loaded() == stored
      modifies this
      ensures stored == if storeOk then Apply(old(stored), addInput, ignoreInput, removeInput, now) else old(stored)
      ensures storeOk ==> Loaded() == stored
      ensures !modelsChanged ==> stored.models == old(stored).models
    {
      var row: Row;
      row, modelsChanged := ApplyRow(Loaded(), addInput, ignoreInput, removeInput, now);
      models, detected, removed := row.models, row.pendingAdd, row.pendingRemove;
      ignored, lastCheck := row.ignored, row.checkedAt;
      Persist(modelsChanged, storeOk);
    }
  }
}
