/** The ordered duplicate-free name lists of controller/channel_upstream_update.go. */
module ModelNames {
  import TextList

  /** Go's unicode.IsSpace. */
  predicate IsSpace(c: char) {
    c in {'\t', '\n', '\U{000B}', '\U{000C}', '\r', ' ', '\U{0085}', '\U{00A0}', '\U{1680}', '\U{2028}', '\U{2029}',
          '\U{202F}', '\U{205F}', '\U{3000}'} || '\U{2000}' <= c <= '\U{200A}'
  }

  function TrimStart(s: string): string { if s != "" && IsSpace(s[0]) then TrimStart(s[1..]) else s }

  function TrimEnd(s: string): string { if s != "" && IsSpace(s[|s| - 1]) then TrimEnd(s[..|s| - 1]) else s }

  function TrimSpace(s: string): string { TrimEnd(TrimStart(s)) }

  /** A name as the lists keep it. */
  predicate IsName(s: string) { s != "" && !IsSpace(s[0]) && !IsSpace(s[|s| - 1]) }

  lemma {:induction false} TrimStartMeans(s: string)
    ensures var t := TrimStart(s);
            (t != "" ==> !IsSpace(t[0]) && t[|t| - 1] == s[|s| - 1]) && |t| <= |s| && s[|s| - |t|..] == t
    decreases |s|
  {
    if s != "" && IsSpace(s[0]) {
      TrimStartMeans(s[1..]);
    }
  }

  lemma {:induction false} TrimEndMeans(s: string)
    ensures var t := TrimEnd(s); (t != "" ==> !IsSpace(t[|t| - 1]) && t[0] == s[0]) && |t| <= |s| && s[..|t|] == t
    decreases |s|
  {
    if s != "" && IsSpace(s[|s| - 1]) {
      TrimEndMeans(s[..|s| - 1]);
    }
  }

  lemma TrimSpaceMeans(s: string)
    ensures TrimSpace(s) != "" ==> IsName(TrimSpace(s))
    ensures IsName(s) ==> TrimSpace(s) == s
    ensures forall c :: c in TrimSpace(s) ==> c in s
  {
    TrimStartMeans(s);
    TrimEndMeans(TrimStart(s));
  }

  /** normalizeModelNames: trimmed, non-empty, first occurrences only. */
  function Normalize(names: seq<string>): seq<string> {
    if names == [] then []
    else
      var before, t := Normalize(names[..|names| - 1]), TrimSpace(names[|names| - 1]);
      if t == "" || t in before then before else before + [t]
  }

  ghost predicate Clean(names: seq<string>) {
    && (forall i :: 0 <= i < |names| ==> IsName(names[i]))
    && (forall i, j :: 0 <= i < j < |names| ==> names[i] != names[j])
  }

  lemma {:induction false} NormalizeIsClean(names: seq<string>)
    ensures Clean(Normalize(names))
  {
    if names != [] {
      NormalizeIsClean(names[..|names| - 1]);
      TrimSpaceMeans(names[|names| - 1]);
    }
  }

  lemma CleanPrefix(names: seq<string>, n: nat)
    requires Clean(names) && n <= |names|
    ensures Clean(names[..n])
  {
  }

  lemma {:induction false} NormalizeClean(names: seq<string>)
    requires Clean(names)
    ensures Normalize(names) == names
  {
    if names != [] {
      var n := |names| - 1;
      CleanPrefix(names, n);
      NormalizeClean(names[..n]);
      TrimSpaceMeans(names[n]);
      assert names[n] !in names[..n];
    }
  }

  lemma {:induction false} NormalizeHas(names: seq<string>, x: string)
    ensures x in Normalize(names) <==> x != "" && exists i :: 0 <= i < |names| && TrimSpace(names[i]) == x
  {
    if names != [] {
      var n := |names| - 1;
      NormalizeHas(names[..n], x);
      assert forall i :: 0 <= i < n ==> names[..n][i] == names[i];
    }
  }

  /** The names that satisfy p, in order. */
  function Keep(names: seq<string>, p: string -> bool): seq<string> {
    if names == [] then []
    else if p(names[|names| - 1]) then Keep(names[..|names| - 1], p) + [names[|names| - 1]]
    else Keep(names[..|names| - 1], p)
  }

  lemma {:induction false} KeepHas(names: seq<string>, p: string -> bool, x: string)
    ensures x in Keep(names, p) <==> x in names && p(x)
  {
    if names != [] {
      KeepHas(names[..|names| - 1], p, x);
      assert names == names[..|names| - 1] + [names[|names| - 1]];
    }
  }

  lemma {:induction false} KeepIsClean(names: seq<string>, p: string -> bool)
    requires Clean(names)
    ensures Clean(Keep(names, p))
  {
    if names != [] {
      var n := |names| - 1;
      CleanPrefix(names, n);
      KeepIsClean(names[..n], p);
      KeepHas(names[..n], p, names[n]);
      assert names[n] !in names[..n];
    }
  }

  lemma {:induction false} KeepAll(names: seq<string>, p: string -> bool)
    requires forall x :: x in names ==> p(x)
    ensures Keep(names, p) == names
  {
    if names != [] {
      assert names == names[..|names| - 1] + [names[|names| - 1]];
      KeepAll(names[..|names| - 1], p);
    }
  }

  function Outside(names: seq<string>): string -> bool { x => x !in names }

  function Inside(names: seq<string>): string -> bool { x => x in names }

  /** mergeModelNames, subtractModelNames, intersectModelNames. */
  function Merge(base: seq<string>, appended: seq<string>): seq<string> { Normalize(base + appended) }

  function Subtract(base: seq<string>, removed: seq<string>): seq<string> {
    Keep(Normalize(base), Outside(Normalize(removed)))
  }

  function Intersect(base: seq<string>, allowed: seq<string>): seq<string> {
    Keep(Normalize(base), Inside(Normalize(allowed)))
  }

  lemma {:induction false} SubtractMeans(base: seq<string>, removed: seq<string>, x: string)
    ensures Clean(Subtract(base, removed))
    ensures x in Subtract(base, removed) <==> x in Normalize(base) && x !in Normalize(removed)
  {
    NormalizeIsClean(base);
    KeepIsClean(Normalize(base), Outside(Normalize(removed)));
    KeepHas(Normalize(base), Outside(Normalize(removed)), x);
  }

  lemma {:induction false} IntersectMeans(base: seq<string>, allowed: seq<string>, x: string)
    ensures Clean(Intersect(base, allowed))
    ensures x in Intersect(base, allowed) <==> x in Normalize(base) && x in Normalize(allowed)
  {
    NormalizeIsClean(base);
    KeepIsClean(Normalize(base), Inside(Normalize(allowed)));
    KeepHas(Normalize(base), Inside(Normalize(allowed)), x);
  }

  lemma {:induction false} MergeMeans(base: seq<string>, appended: seq<string>, x: string)
    ensures Clean(Merge(base, appended))
    ensures x in Merge(base, appended) <==> x in Normalize(base) || x in Normalize(appended)
  {
    var both := base + appended;
    NormalizeIsClean(both);
    NormalizeHas(both, x);
    NormalizeHas(base, x);
    NormalizeHas(appended, x);
    if i :| 0 <= i < |base| && TrimSpace(base[i]) == x {
      assert TrimSpace(both[i]) == x;
    }
    if i :| 0 <= i < |appended| && TrimSpace(appended[i]) == x {
      assert TrimSpace(both[|base| + i]) == x;
    }
  }

  lemma {:induction false} KeepSnoc(names: seq<string>, p: string -> bool, x: string)
    ensures Keep(names + [x], p) == if p(x) then Keep(names, p) + [x] else Keep(names, p)
  {
    assert (names + [x])[..|names|] == names;
  }

  lemma {:induction false} NormalizeSnoc(names: seq<string>, x: string)
    ensures Normalize(names + [x]) ==
            if TrimSpace(x) == "" || TrimSpace(x) in Normalize(names) then Normalize(names)
            else Normalize(names) + [TrimSpace(x)]
  {
    assert (names + [x])[..|names|] == names;
  }

  /** One more name behind a merge. */
  lemma AppendName(base: seq<string>, init: seq<string>, t: string)
    ensures var merged, p := base + Keep(init, Outside(base)), Outside(base);
            (if t in merged then merged else merged + [t]) == base + Keep(if t in init then init else init + [t], p)
  {
    var p := Outside(base);
    KeepHas(init, p, t);
    KeepSnoc(init, p, t);
    assert base + (Keep(init, p) + [t]) == base + Keep(init, p) + [t];
  }

  lemma {:induction false} MergeOneMore(base: seq<string>, init: seq<string>, last: string)
    requires Merge(base, init) == Normalize(base) + Keep(Normalize(init), Outside(Normalize(base)))
    ensures Merge(base, init + [last]) == Normalize(base) + Keep(Normalize(init + [last]), Outside(Normalize(base)))
  {
    assert base + (init + [last]) == base + init + [last];
    NormalizeSnoc(base + init, last);
    NormalizeSnoc(init, last);
    AppendName(Normalize(base), Normalize(init), TrimSpace(last));
  }

  lemma {:induction false} MergeNothing(base: seq<string>)
    ensures Merge(base, []) == Normalize(base) + Keep(Normalize([]), Outside(Normalize(base)))
  {
    assert base + [] == base;
  }

  /** Merging keeps the base in place and adds the new names behind it, in order. */
  lemma {:induction false} MergeAppends(base: seq<string>, appended: seq<string>)
    ensures Merge(base, appended) == Normalize(base) + Keep(Normalize(appended), Outside(Normalize(base)))
    decreases |appended|
  {
    if appended == [] {
      MergeNothing(base);
    } else {
      var init, last := appended[..|appended| - 1], appended[|appended| - 1];
      assert appended == init + [last];
      MergeAppends(base, init);
      MergeOneMore(base, init, last);
    }
  }

  /** The loop of mergeModelNames over a local set. */
  method AppendNew(base: seq<string>, more: seq<string>) returns (merged: seq<string>)
    requires Clean(more)
    ensures merged == base + Keep(more, Outside(base))
  {
    merged := base;
    var seen := set x | x in merged;
    for i := 0 to |more|
      invariant merged == base + Keep(more[..i], Outside(base))
      invariant forall x :: x in seen <==> x in merged
    {
      var x := more[i];
      AppendName(base, more[..i], x);
      assert x !in more[..i] && more[..i + 1] == more[..i] + [x];
      if x !in seen {
        seen := seen + {x};
        merged := merged + [x];
      }
    }
    assert more[..|more|] == more;
  }

  method MergeModelNames(base: seq<string>, appended: seq<string>) returns (merged: seq<string>)
    ensures merged == Merge(base, appended)
  {
    NormalizeIsClean(appended);
    merged := AppendNew(Normalize(base), Normalize(appended));
    MergeAppends(base, appended);
  }

  /** applySelectedModelChanges: a name that is both added and removed is added. */
  function ApplySelected(origin: seq<string>, add: seq<string>, remove: seq<string>): seq<string> {
    var normalizedAdd := Normalize(add);
    var normalizedRemove := Subtract(Normalize(remove), normalizedAdd);
    Subtract(Merge(origin, normalizedAdd), normalizedRemove)
  }

  lemma {:induction false} NormalizeTwice(names: seq<string>)
    ensures Normalize(Normalize(names)) == Normalize(names)
  {
    NormalizeIsClean(names);
    NormalizeClean(Normalize(names));
  }

  lemma {:induction false} ApplySelectedMeans(origin: seq<string>, add: seq<string>, remove: seq<string>, x: string)
    ensures Clean(ApplySelected(origin, add, remove))
    ensures x in ApplySelected(origin, add, remove) <==>
            x in Normalize(add) || (x in Normalize(origin) && x !in Normalize(remove))
  {
    var a, r := Normalize(add), Subtract(Normalize(remove), Normalize(add));
    NormalizeTwice(add);
    NormalizeTwice(remove);
    SubtractMeans(Normalize(remove), a, x);
    MergeMeans(origin, a, x);
    SubtractMeans(Merge(origin, a), r, x);
    NormalizeTwice(origin + a);
    NormalizeClean(r);
  }

  // ----- the models column -----

  /** channel.GetModels(). */
  function GetModels(models: string): seq<string> {
    if models == "" then [] else TextList.Split(TextList.Trim(models, ','), ',')
  }

  /** The channel's models as the lists use them. */
  function Local(models: string): seq<string> { Normalize(GetModels(models)) }

  lemma LocalIsPlain(models: string, x: string)
    requires x in Local(models)
    ensures TextList.Plain(x, ',')
  {
    var parts := GetModels(models);
    NormalizeHas(parts, x);
    var i :| 0 <= i < |parts| && TrimSpace(parts[i]) == x;
    TextList.SplitGivesPlain(TextList.Trim(models, ','), i, ',');
    TrimSpaceMeans(parts[i]);
  }

  /** Clean comma-free names survive being joined into the column. */
  lemma {:induction false} LocalOfJoin(names: seq<string>)
    requires Clean(names) && forall i :: 0 <= i < |names| ==> TextList.Plain(names[i], ',')
    ensures Local(TextList.Join(names, ',')) == names
  {
    if names != [] {
      TextList.CleanNeedsNoTrim(names, ',');
      TextList.SplitJoin(names, ',');
      NormalizeClean(names);
    }
  }

  /** The names that a name becomes when the column is split at its commas. */
  function Parts(name: string): seq<string> { Normalize(TextList.Split(name, ',')) }

  lemma PlainParts(name: string)
    requires IsName(name) && TextList.Plain(name, ',')
    ensures Parts(name) == [name]
  {
    TextList.SplitOne(name, ',');
    NormalizeClean([name]);
  }

  lemma {:induction false} NormalizeOfUnion(a: seq<string>, b: seq<string>, x: string)
    ensures x in Normalize(a + b) <==> x in Normalize(a) || x in Normalize(b)
  {
    MergeMeans(a, b, x);
  }

  /** One of the names falls apart into x, among others. */
  predicate SomePart(names: seq<string>, x: string) { exists i :: 0 <= i < |names| && x in Parts(names[i]) }

  lemma SomePartCons(head: string, tail: seq<string>, x: string)
    ensures SomePart([head] + tail, x) <==> x in Parts(head) || SomePart(tail, x)
  {
    var names := [head] + tail;
    assert names[0] == head && forall i :: 0 <= i < |tail| ==> names[i + 1] == tail[i];
    if i :| 0 <= i < |tail| && x in Parts(tail[i]) {
      assert x in Parts(names[i + 1]);
    }
  }

  lemma PartsOfTwo(head: string, tail: string, x: string)
    ensures x in Parts(head + [','] + tail) <==> x in Parts(head) || x in Parts(tail)
  {
    TextList.SplitAppend(head, tail, ',');
    NormalizeOfUnion(TextList.Split(head, ','), TextList.Split(tail, ','), x);
  }

  lemma NoParts()
    ensures Parts("") == []
  {
    TrimSpaceMeans("");
    assert TextList.Split("", ',') == [""];
  }

  lemma {:induction false} PartsOfJoin(names: seq<string>, x: string)
    ensures x in Parts(TextList.Join(names, ',')) <==> SomePart(names, x)
    decreases |names|
  {
    if names == [] {
      NoParts();
    } else {
      var head, tail := names[0], names[1..];
      assert names == [head] + tail;
      SomePartCons(head, tail, x);
      if tail != [] {
        PartsOfTwo(head, TextList.Join(tail, ','), x);
        PartsOfJoin(tail, x);
      }
    }
  }

  lemma LocalIsParts(models: string, x: string)
    ensures x in Local(models) <==> x in Parts(models)
  {
    TrimSpaceMeans("");
    var t := TextList.Trim(models, ',');
    var read, parts := TextList.Split(t, ','), TextList.Split(models, ',');
    NormalizeHas(read, x);
    NormalizeHas(parts, x);
    if models != "" && x != "" {
      forall item | item != "" ensures item in read <==> item in parts {
        TextList.SplitTrimLeft(models, ',', item);
        TextList.SplitTrimRight(TextList.TrimLeft(models, ','), ',', item);
      }
      if i :| 0 <= i < |read| && TrimSpace(read[i]) == x {
        assert read[i] in parts;
      }
      if i :| 0 <= i < |parts| && TrimSpace(parts[i]) == x {
        assert parts[i] in read;
      }
    }
  }

  /** What the column holds after any list is joined into it. */
  lemma {:induction false} LocalOfAnyJoin(names: seq<string>, x: string)
    ensures x in Local(TextList.Join(names, ',')) <==> SomePart(names, x)
  {
    LocalIsParts(TextList.Join(names, ','), x);
    PartsOfJoin(names, x);
  }
}
