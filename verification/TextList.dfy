/** Lists kept in one string: strings.Join(items, sep) on the way out, strings.Split(strings.Trim(s, sep), sep)
    on the way in. The keys of a channel are kept with '\n', its models with ',' (model/channel.go). */
module TextList {

  function Join(items: seq<string>, sep: char): string {
    if items == [] then "" else if |items| == 1 then items[0] else items[0] + [sep] + Join(items[1..], sep)
  }

  /** strings.Split(s, sep). */
  function Split(s: string, sep: char): (r: seq<string>)
    ensures |r| >= 1
    decreases |s|
  {
    if s == "" then [""]
    else
      var rest := Split(s[1..], sep);
      if s[0] == sep then [""] + rest else [[s[0]] + rest[0]] + rest[1..]
  }

  function TrimLeft(s: string, sep: char): string { if s != "" && s[0] == sep then TrimLeft(s[1..], sep) else s }

  function TrimRight(s: string, sep: char): string {
    if s != "" && s[|s| - 1] == sep then TrimRight(s[..|s| - 1], sep) else s
  }

  /** strings.Trim(s, sep). */
  function Trim(s: string, sep: char): string { TrimRight(TrimLeft(s, sep), sep) }

  predicate Plain(item: string, sep: char) { sep !in item }

  /** No item contains the separator and the list neither starts nor ends with an empty one. */
  predicate Clean(items: seq<string>, sep: char) {
    items != [] && (forall i :: 0 <= i < |items| ==> Plain(items[i], sep)) && items[0] != "" && items[|items| - 1] != ""
  }

  // ----- splitting -----

  lemma {:induction false} SplitOne(item: string, sep: char)
    requires Plain(item, sep)
    ensures Split(item, sep) == [item]
    decreases |item|
  {
    if item != "" {
      assert forall c :: c in item[1..] ==> c in item;
      SplitOne(item[1..], sep);
      assert [item[0]] + item[1..] == item;
    }
  }

  lemma {:induction false} SplitCons(item: string, s: string, sep: char)
    requires Plain(item, sep)
    ensures Split(item + [sep] + s, sep) == [item] + Split(s, sep)
    decreases |item|
  {
    var t := item + [sep] + s;
    if item == "" {
      assert t == [sep] + s && t[1..] == s;
    } else {
      assert forall c :: c in item[1..] ==> c in item;
      assert t[1..] == item[1..] + [sep] + s;
      SplitCons(item[1..], s, sep);
      assert [item[0]] + item[1..] == item;
    }
  }

  lemma {:induction false} SplitJoin(items: seq<string>, sep: char)
    requires items != [] && forall i :: 0 <= i < |items| ==> Plain(items[i], sep)
    ensures Split(Join(items, sep), sep) == items
    decreases |items|
  {
    if |items| == 1 {
      SplitOne(items[0], sep);
    } else {
      SplitCons(items[0], Join(items[1..], sep), sep);
      SplitJoin(items[1..], sep);
    }
  }

  /** What one more character in front does to the items. */
  function PutFirst(c: char, items: seq<string>, sep: char): seq<string>
    requires items != []
  {
    if c == sep then [""] + items else [[c] + items[0]] + items[1..]
  }

  lemma {:induction false} SplitFirst(c: char, s: string, sep: char)
    ensures Split([c] + s, sep) == PutFirst(c, Split(s, sep), sep)
  {
    assert ([c] + s)[1..] == s;
  }

  lemma PutFirstAppend(c: char, a: seq<string>, b: seq<string>, sep: char)
    requires a != []
    ensures PutFirst(c, a + b, sep) == PutFirst(c, a, sep) + b
  {
  }

  lemma {:induction false} SplitAppend(s: string, t: string, sep: char)
    ensures Split(s + [sep] + t, sep) == Split(s, sep) + Split(t, sep)
    decreases |s|
  {
    if s == "" {
      assert s + [sep] + t == [sep] + t;
      SplitFirst(sep, t, sep);
    } else {
      var c, rest := s[0], s[1..];
      assert s == [c] + rest && s + [sep] + t == [c] + (rest + [sep] + t);
      SplitAppend(rest, t, sep);
      SplitFirst(c, rest, sep);
      SplitFirst(c, rest + [sep] + t, sep);
      PutFirstAppend(c, Split(rest, sep), Split(t, sep), sep);
    }
  }

  lemma {:induction false} SplitGivesPlain(s: string, i: nat, sep: char)
    requires i < |Split(s, sep)|
    ensures Plain(Split(s, sep)[i], sep)
    decreases |s|
  {
    if s != "" {
      var rest := Split(s[1..], sep);
      SplitGivesPlain(s[1..], if i == 0 then 0 else if s[0] == sep then i - 1 else i, sep);
    }
  }

  // ----- trimming -----

  lemma {:induction false} JoinStarts(items: seq<string>, sep: char)
    requires items != [] && items[0] != ""
    ensures Join(items, sep) != "" && Join(items, sep)[0] == items[0][0]
  {
  }

  lemma {:induction false} JoinEnds(items: seq<string>, sep: char)
    requires items != [] && items[|items| - 1] != ""
    ensures var s, last := Join(items, sep), items[|items| - 1]; s != "" && s[|s| - 1] == last[|last| - 1]
    decreases |items|
  {
    if |items| > 1 {
      JoinEnds(items[1..], sep);
    }
  }

  lemma {:induction false} TrimRightAfter(s: string, t: string, sep: char)
    requires TrimRight(t, sep) != ""
    ensures TrimRight(s + t, sep) == s + TrimRight(t, sep) && TrimRight(t, sep)[0] == t[0]
    decreases |t|
  {
    if t[|t| - 1] == sep {
      assert (s + t)[..|s + t| - 1] == s + t[..|t| - 1];
      TrimRightAfter(s, t[..|t| - 1], sep);
    }
  }

  lemma {:induction false} TrimRightEmpty(s: string, sep: char)
    requires TrimRight(s, sep) == ""
    ensures forall i :: 0 <= i < |s| ==> s[i] == sep
    decreases |s|
  {
    if s != "" {
      TrimRightEmpty(s[..|s| - 1], sep);
      assert forall i :: 0 <= i < |s| - 1 ==> s[i] == s[..|s| - 1][i];
    }
  }

  lemma {:induction false} TrimLeftEmpty(s: string, sep: char)
    requires forall i :: 0 <= i < |s| ==> s[i] == sep
    ensures TrimLeft(s, sep) == ""
    decreases |s|
  {
    if s != "" {
      TrimLeftEmpty(s[1..], sep);
    }
  }

  /** An item that reads back as a list: behind its own first item it reads back with that item twice, or with an
      empty one. */
  lemma {:induction false} ReadBehindFirst(item: string, sep: char)
    requires var items := Split(Trim(item, sep), sep); items[0] != ""
    ensures var p := Split(Trim(item, sep), sep)[0];
            var items := Split(Trim(p + [sep] + item, sep), sep);
            |items| >= 2 && items[0] == p && (items[1] == p || items[1] == "")
  {
    var p, kept := Split(Trim(item, sep), sep)[0], TrimRight(item, sep);
    SplitGivesPlain(Trim(item, sep), 0, sep);
    assert p[0] in p;
    if kept == "" {
      TrimRightEmpty(item, sep);
      TrimLeftEmpty(item, sep);
      assert false;
    }
    TrimRightAfter(p + [sep], item, sep);
    SplitCons(p, kept, sep);
    assert item[0] == sep ==> Split(kept, sep)[0] == "";
  }

  lemma {:induction false} CleanNeedsNoTrim(items: seq<string>, sep: char)
    requires Clean(items, sep)
    ensures Join(items, sep) != "" && Trim(Join(items, sep), sep) == Join(items, sep)
  {
    JoinStarts(items, sep);
    JoinEnds(items, sep);
    assert Plain(items[0], sep) && Plain(items[|items| - 1], sep);
  }

  lemma {:induction false} TrimmedEnds(s: string, sep: char)
    ensures var t := TrimRight(s, sep); (t != "" ==> t[|t| - 1] != sep) && |t| <= |s| && (t != "" ==> t[0] == s[0])
    decreases |s|
  {
    if s != "" && s[|s| - 1] == sep {
      TrimmedEnds(s[..|s| - 1], sep);
    }
  }

  lemma {:induction false} TrimmedStarts(s: string, sep: char)
    ensures var t := TrimLeft(s, sep); t != "" ==> t[0] != sep
    decreases |s|
  {
    if s != "" && s[0] == sep {
      TrimmedStarts(s[1..], sep);
    }
  }

  lemma {:induction false} SplitStarts(s: string, sep: char)
    requires s != ""
    ensures Split(s, sep)[0] == "" <==> s[0] == sep
  {
  }

  lemma {:induction false} SplitEnds(s: string, sep: char)
    requires s != ""
    ensures Split(s, sep)[|Split(s, sep)| - 1] == "" <==> s[|s| - 1] == sep
    decreases |s|
  {
    var rest := Split(s[1..], sep);
    if |s| == 1 {
      assert s[1..] == "" && rest == [""];
    } else {
      SplitEnds(s[1..], sep);
      if s[0] != sep && |rest| > 1 {
        assert ([[s[0]] + rest[0]] + rest[1..])[|rest| - 1] == rest[|rest| - 1];
      }
    }
  }

  /** Trimming separators only drops empty items. */
  lemma {:induction false} SplitTrimLeft(s: string, sep: char, item: string)
    requires item != ""
    ensures item in Split(TrimLeft(s, sep), sep) <==> item in Split(s, sep)
    decreases |s|
  {
    if s != "" && s[0] == sep {
      SplitTrimLeft(s[1..], sep, item);
    }
  }

  lemma {:induction false} SplitTrimRight(s: string, sep: char, item: string)
    requires item != ""
    ensures item in Split(TrimRight(s, sep), sep) <==> item in Split(s, sep)
    decreases |s|
  {
    if s != "" && s[|s| - 1] == sep {
      var t := s[..|s| - 1];
      assert s == t + [sep] + "";
      SplitAppend(t, "", sep);
      SplitTrimRight(t, sep, item);
    }
  }

  /** Reading back what was written gives the same list exactly for clean lists. */
  lemma {:induction false} ReadBackIffClean(items: seq<string>, sep: char)
    requires Join(items, sep) != ""
    ensures Split(Trim(Join(items, sep), sep), sep) == items <==> Clean(items, sep)
  {
    var s := Join(items, sep);
    var t := Trim(s, sep);
    if Clean(items, sep) {
      CleanNeedsNoTrim(items, sep);
      SplitJoin(items, sep);
    }
    if Split(t, sep) == items {
      forall i | 0 <= i < |items| ensures Plain(items[i], sep) {
        SplitGivesPlain(t, i, sep);
      }
      TrimmedStarts(s, sep);
      TrimmedEnds(TrimLeft(s, sep), sep);
      if t != "" {
        SplitStarts(t, sep);
        SplitEnds(t, sep);
      }
    }
  }
}
