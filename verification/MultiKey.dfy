/** Multi-key channel management: the mutating actions of ManageMultiKeys (controller/channel.go) with
    the key list format and the Update bookkeeping they rely on (model/channel.go).

    A key list is read back from text. `parse` stands for the JSON-array reading of a key text: None
    unless the text is a JSON array. Go's nil maps are empty maps here. */
module MultiKey {
  import opened Base
  import TextList

  type Parse = string -> Option<seq<string>>

  const Enabled := 1
  const ManuallyDisabled := 2
  const AutoDisabled := 3

  // ----- key texts -----

  function Lines(text: string): seq<string> { TextList.Split(TextList.Trim(text, '\n'), '\n') }

  /** channel.GetKeys(). */
  function KeysOf(text: string, parse: Parse): seq<string> {
    if text == "" then [] else if parse(text).Some? then parse(text).value else Lines(text)
  }

  /** The keys that Update counts: a JSON array without elements is split into lines after all. */
  function CountedKeys(text: string, parse: Parse): seq<string> {
    if text == "" then []
    else if parse(text).Some? && parse(text).value != [] then parse(text).value
    else Lines(text)
  }

  /** Writing the keys as lines and reading the column again gives the same keys. */
  predicate SurvivesStorage(keys: seq<string>, parse: Parse) {
    TextList.Join(keys, '\n') != "" && KeysOf(TextList.Join(keys, '\n'), parse) == keys
  }

  /** Unless the joined text happens to be a JSON array, exactly the non-empty lists of one-line keys
      that neither start nor end with a blank key survive. */
  lemma {:induction false} SurvivesIffClean(keys: seq<string>, parse: Parse)
    requires parse(TextList.Join(keys, '\n')) == None
    ensures SurvivesStorage(keys, parse) <==> TextList.Clean(keys, '\n')
  {
    if TextList.Join(keys, '\n') == "" {
      if TextList.Clean(keys, '\n') {
        TextList.CleanNeedsNoTrim(keys, '\n');
      }
    } else {
      TextList.ReadBackIffClean(keys, '\n');
    }
  }

  /** A blank key in the middle is a key; once a deletion puts it at the edge, it and the alignment are lost. */
  lemma {:induction false} BlankEdgeIsLost(parse: Parse)
    requires forall text :: parse(text) == None
    ensures KeysOf("a\n\nb", parse) == ["a", "", "b"] && !SurvivesStorage(["", "b"], parse)
  {
    var keys := ["a", "", "b"];
    assert keys[1..] == ["", "b"] && keys[1..][1..] == ["b"];
    assert TextList.Join(["", "b"], '\n') == "" + ['\n'] + "b";
    assert TextList.Join(keys, '\n') == "a\n\nb";
    SurvivesIffClean(keys, parse);
    SurvivesIffClean(["", "b"], parse);
  }

  // ----- what an administrator sees -----

  /** A key with its state, as get_key_status lists it. */
  datatype Entry = Entry(key: string, status: int, time: int, reason: string)

  function Get<T>(m: map<int, T>, i: int, default: T): T { if i in m then m[i] else default }

  function EntryAt(key: string, i: int, status: map<int, int>, time: map<int, int>, reason: map<int, string>): Entry {
    var s := Get(status, i, Enabled);
    if s == Enabled then Entry(key, Enabled, 0, "") else Entry(key, s, Get(time, i, 0), Get(reason, i, ""))
  }

  function Show(keys: seq<string>, status: map<int, int>, time: map<int, int>,
                reason: map<int, string>): (r: seq<Entry>)
    ensures |r| == |keys|
    ensures forall i :: 0 <= i < |keys| ==> r[i] == EntryAt(keys[i], i, status, time, reason)
  {
    seq(|keys|, i requires 0 <= i < |keys| => EntryAt(keys[i], i, status, time, reason))
  }

  function KeysIn(entries: seq<Entry>): (r: seq<string>)
    ensures |r| == |entries|
    ensures forall i :: 0 <= i < |entries| ==> r[i] == entries[i].key
  {
    seq(|entries|, i requires 0 <= i < |entries| => entries[i].key)
  }

  function Without(entries: seq<Entry>, i: nat): seq<Entry> {
    if i < |entries| then entries[..i] + entries[i + 1..] else entries
  }

  /** The entries with another state for key i. */
  function Restated(entries: seq<Entry>, i: nat, status: int, time: int, reason: string): seq<Entry> {
    if i < |entries| then entries[i := Entry(entries[i].key, status, time, reason)] else entries
  }

  /** The entries that are not automatically disabled, in order. */
  function DropAuto(entries: seq<Entry>): seq<Entry> {
    if entries == [] then []
    else
      var init, last := entries[..|entries| - 1], entries[|entries| - 1];
      if last.status == AutoDisabled then DropAuto(init) else DropAuto(init) + [last]
  }

  ghost predicate Below<T>(m: map<int, T>, size: int) { forall i :: i in m ==> 0 <= i < size }

  /** The three index maps of a channel. */
  datatype Marks = Marks(status: map<int, int>, time: map<int, int>, reason: map<int, string>)

  ghost predicate MarksBelow(m: Marks, size: int) {
    Below(m.status, size) && Below(m.time, size) && Below(m.reason, size)
  }

  function ShowMarks(keys: seq<string>, m: Marks): seq<Entry> { Show(keys, m.status, m.time, m.reason) }

  /** m agrees with m' except at index n. */
  ghost predicate SameBut(m: Marks, m': Marks, n: int) {
    forall i :: i != n ==>
      && Get(m'.status, i, Enabled) == Get(m.status, i, Enabled)
      && Get(m'.time, i, 0) == Get(m.time, i, 0) && Get(m'.reason, i, "") == Get(m.reason, i, "")
  }

  /** One more key is shown; the states of the earlier ones did not change. */
  lemma ShowSnoc(keys: seq<string>, key: string, m: Marks, m': Marks)
    requires SameBut(m, m', |keys|)
    ensures ShowMarks(keys + [key], m') == ShowMarks(keys, m) + [EntryAt(key, |keys|, m'.status, m'.time, m'.reason)]
  {
  }

  lemma {:induction false} DropAutoShrinks(entries: seq<Entry>)
    ensures |DropAuto(entries)| <= |entries|
    ensures |DropAuto(entries)| == |entries| <==> forall i :: 0 <= i < |entries| ==> entries[i].status != AutoDisabled
    ensures forall e :: e in DropAuto(entries) <==> e in entries && e.status != AutoDisabled
  {
    if entries != [] {
      var init := entries[..|entries| - 1];
      DropAutoShrinks(init);
      assert entries == init + [entries[|entries| - 1]];
      assert forall i :: 0 <= i < |init| ==> entries[i] == init[i];
    }
  }

  lemma KeysOfShow(keys: seq<string>, m: Marks)
    ensures KeysIn(ShowMarks(keys, m)) == keys
  {
  }

  // ----- the loops over the keys -----

  function EnabledBelow(status: map<int, int>, size: int): set<int> {
    set k | 0 <= k < size && Get(status, k, Enabled) == Enabled
  }

  lemma EnabledStep(status: map<int, int>, i: nat)
    ensures |EnabledBelow(status, i + 1)| ==
            |EnabledBelow(status, i)| + if Get(status, i, Enabled) == Enabled then 1 else 0
  {
    if Get(status, i, Enabled) == Enabled {
      assert EnabledBelow(status, i + 1) == EnabledBelow(status, i) + {i};
    } else {
      assert EnabledBelow(status, i + 1) == EnabledBelow(status, i);
    }
  }

  function Disabled(status: int): int { if status == Enabled then ManuallyDisabled else status }

  /** The loop of disable_all_keys. */
  method DisableEnabled(status: map<int, int>, size: int) returns (status': map<int, int>, disabledCount: int)
    ensures forall k :: k in status' ==> k in status || 0 <= k < size
    ensures forall k :: k in status ==> k in status'
    ensures forall k :: Get(status', k, Enabled) ==
              if 0 <= k < size then Disabled(Get(status, k, Enabled)) else Get(status, k, Enabled)
    ensures disabledCount == |EnabledBelow(status, size)|
  {
    disabledCount := 0;
    status' := status;
    var i := 0;
    while i < size
      invariant i == 0 || 0 <= i <= size
      invariant forall k :: k in status' ==> k in status || 0 <= k < size
      invariant forall k :: k in status ==> k in status'
      invariant forall k :: 0 <= k < i ==> Get(status', k, Enabled) == Disabled(Get(status, k, Enabled))
      invariant forall k :: k < 0 || i <= k ==> Get(status', k, Enabled) == Get(status, k, Enabled)
      invariant disabledCount == |EnabledBelow(status, i)|
    {
      EnabledStep(status, i);
      if Get(status', i, Enabled) == Enabled {
        status' := status'[i := ManuallyDisabled];
        disabledCount := disabledCount + 1;
      }
      i := i + 1;
    }
    assert EnabledBelow(status, size) == EnabledBelow(status, i);
  }

  function Put<T>(to: map<int, T>, at: int, from: map<int, T>, i: int): map<int, T> {
    if i in from then to[at := from[i]] else to
  }

  /** delete_key keeps the state of key i under its new number: a status unless it says enabled. */
  function Carry(to: Marks, at: int, from: Marks, i: int): Marks {
    Marks(if Get(from.status, i, Enabled) != Enabled then Put(to.status, at, from.status, i) else to.status,
          Put(to.time, at, from.time, i), Put(to.reason, at, from.reason, i))
  }

  /** delete_disabled_keys keeps it only for a disabled key. */
  function CarryDisabled(to: Marks, at: int, from: Marks, i: int): Marks {
    if Get(from.status, i, Enabled) == Enabled then to else Carry(to, at, from, i)
  }

  lemma CarryShows(keys: seq<string>, to: Marks, key: string, from: Marks, i: int)
    requires MarksBelow(to, |keys|)
    ensures var to' := Carry(to, |keys|, from, i);
            && MarksBelow(to', |keys| + 1)
            && ShowMarks(keys + [key], to') ==
               ShowMarks(keys, to) + [EntryAt(key, i, from.status, from.time, from.reason)]
    ensures var to' := CarryDisabled(to, |keys|, from, i);
            && MarksBelow(to', |keys| + 1)
            && ShowMarks(keys + [key], to') ==
               ShowMarks(keys, to) + [EntryAt(key, i, from.status, from.time, from.reason)]
  {
    ShowSnoc(keys, key, to, Carry(to, |keys|, from, i));
    ShowSnoc(keys, key, to, CarryDisabled(to, |keys|, from, i));
  }

  /** Whether key i brings a disabled time or reason along. */
  predicate Brings(m: Marks, i: int, onlyDisabled: bool) {
    (i in m.time || i in m.reason) && (onlyDisabled ==> Get(m.status, i, Enabled) != Enabled)
  }

  /** The new time and reason maps name exactly the new numbers of keys that bring one along; key kept[j] is now j. */
  ghost predicate CarriedOver(m': Marks, m: Marks, kept: seq<int>, onlyDisabled: bool) {
    forall j :: j in m'.time || j in m'.reason <==> 0 <= j < |kept| && Brings(m, kept[j], onlyDisabled)
  }

  lemma CarryKeeps(m': Marks, m: Marks, kept: seq<int>, i: int, onlyDisabled: bool)
    requires CarriedOver(m', m, kept, onlyDisabled)
    ensures CarriedOver(if onlyDisabled then CarryDisabled(m', |kept|, m, i) else Carry(m', |kept|, m, i),
                        m, kept + [i], onlyDisabled)
  {
  }

  /** The first n entries without entry i. */
  ghost function Skipping(entries: seq<Entry>, i: nat, n: nat): seq<Entry>
    requires n <= |entries|
  {
    if n <= i then entries[..n] else entries[..i] + entries[i + 1..n]
  }

  lemma SkippingStep(entries: seq<Entry>, i: nat, n: nat)
    requires n < |entries|
    ensures Skipping(entries, i, n + 1) ==
            if n == i then Skipping(entries, i, n) else Skipping(entries, i, n) + [entries[n]]
  {
  }

  /** The numbers below n without i. */
  function NumbersWithout(i: nat, n: nat): seq<int> {
    if n == 0 then [] else if n - 1 == i then NumbersWithout(i, n - 1) else NumbersWithout(i, n - 1) + [n - 1]
  }

  /** The numbers of the first n entries that are not automatically disabled. */
  function NumbersKept(entries: seq<Entry>, n: nat): seq<int>
    requires n <= |entries|
  {
    if n == 0 then []
    else if entries[n - 1].status == AutoDisabled then NumbersKept(entries, n - 1)
    else NumbersKept(entries, n - 1) + [n - 1]
  }

  /** The keys and states copied from the first i entries without one. */
  ghost predicate CopiedBut(keys: seq<string>, m: Marks, keyIndex: nat, i: nat, copy: seq<string>, m': Marks)
    requires i <= |keys|
  {
    && MarksBelow(m', |copy|) && ShowMarks(copy, m') == Skipping(ShowMarks(keys, m), keyIndex, i)
    && CarriedOver(m', m, NumbersWithout(keyIndex, i), false) && |NumbersWithout(keyIndex, i)| == |copy|
  }

  lemma CopyBut(keys: seq<string>, m: Marks, keyIndex: nat, i: nat, copy: seq<string>, m': Marks)
    requires i < |keys| && CopiedBut(keys, m, keyIndex, i, copy, m')
    ensures if i == keyIndex then CopiedBut(keys, m, keyIndex, i + 1, copy, m')
            else CopiedBut(keys, m, keyIndex, i + 1, copy + [keys[i]], Carry(m', |copy|, m, i))
  {
    SkippingStep(ShowMarks(keys, m), keyIndex, i);
    if i != keyIndex {
      CarryShows(copy, m', keys[i], m, i);
      CarryKeeps(m', m, NumbersWithout(keyIndex, i), i, false);
    }
  }

  /** The loop of delete_key: copy every key but one, renumbering the states. */
  method CopyWithout(keys: seq<string>, m: Marks, keyIndex: nat) returns (remainingKeys: seq<string>, m': Marks)
    ensures MarksBelow(m', |remainingKeys|)
    ensures ShowMarks(remainingKeys, m') == Without(ShowMarks(keys, m), keyIndex)
    ensures CarriedOver(m', m, NumbersWithout(keyIndex, |keys|), false)
  {
    remainingKeys := [];
    m' := Marks(map[], map[], map[]);
    for i := 0 to |keys|
      invariant CopiedBut(keys, m, keyIndex, i, remainingKeys, m')
    {
      CopyBut(keys, m, keyIndex, i, remainingKeys, m');
      if i != keyIndex {
        m' := Carry(m', |remainingKeys|, m, i);
        remainingKeys := remainingKeys + [keys[i]];
      }
    }
  }

  lemma DropAutoStep(entries: seq<Entry>, i: nat)
    requires i < |entries|
    ensures DropAuto(entries[..i + 1]) ==
            if entries[i].status == AutoDisabled then DropAuto(entries[..i]) else DropAuto(entries[..i]) + [entries[i]]
  {
    assert entries[..i + 1][..i] == entries[..i];
  }

  /** The keys and states copied from the first i entries. */
  ghost predicate Copied(keys: seq<string>, m: Marks, i: nat, copy: seq<string>, m': Marks)
    requires i <= |keys|
  {
    var before := ShowMarks(keys, m);
    && MarksBelow(m', |copy|) && ShowMarks(copy, m') == DropAuto(before[..i])
    && CarriedOver(m', m, NumbersKept(before, i), true) && |NumbersKept(before, i)| == |copy|
  }

  lemma CopyOne(keys: seq<string>, m: Marks, i: nat, copy: seq<string>, m': Marks)
    requires i < |keys| && Copied(keys, m, i, copy, m') && Get(m.status, i, Enabled) != AutoDisabled
    ensures Copied(keys, m, i + 1, copy + [keys[i]], CarryDisabled(m', |copy|, m, i))
  {
    var before := ShowMarks(keys, m);
    DropAutoStep(before, i);
    CarryShows(copy, m', keys[i], m, i);
    CarryKeeps(m', m, NumbersKept(before, i), i, true);
  }

  lemma CopyNone(keys: seq<string>, m: Marks, i: nat, copy: seq<string>, m': Marks)
    requires i < |keys| && Copied(keys, m, i, copy, m') && Get(m.status, i, Enabled) == AutoDisabled
    ensures Copied(keys, m, i + 1, copy, m')
  {
    DropAutoStep(ShowMarks(keys, m), i);
  }

  /** The loop of delete_disabled_keys: copy every key that is not automatically disabled. */
  method CopyWithoutAuto(keys: seq<string>, m: Marks) returns (remainingKeys: seq<string>, m': Marks, deletedCount: int)
    ensures MarksBelow(m', |remainingKeys|)
    ensures ShowMarks(remainingKeys, m') == DropAuto(ShowMarks(keys, m))
    ensures CarriedOver(m', m, NumbersKept(ShowMarks(keys, m), |keys|), true)
    ensures deletedCount == |keys| - |remainingKeys| >= 0
  {
    remainingKeys := [];
    deletedCount := 0;
    m' := Marks(map[], map[], map[]);
    for i := 0 to |keys|
      invariant deletedCount == i - |remainingKeys| >= 0
      invariant Copied(keys, m, i, remainingKeys, m')
    {
      if Get(m.status, i, Enabled) == AutoDisabled {
        CopyNone(keys, m, i, remainingKeys, m');
        deletedCount := deletedCount + 1;
      } else {
        CopyOne(keys, m, i, remainingKeys, m');
        m' := CarryDisabled(m', |remainingKeys|, m, i);
        remainingKeys := remainingKeys + [keys[i]];
      }
    }
    assert ShowMarks(keys, m)[..|keys|] == ShowMarks(keys, m);
  }

  /** What the key column holds after the remaining keys are written: the old text if there is nothing to write. */
  function StoredText(text: string, keys: seq<string>): string {
    if TextList.Join(keys, '\n') == "" then text else TextList.Join(keys, '\n')
  }

  /** The stored text is counted as it is read, and no key numbered beyond that count brings a time or reason along. */
  ghost predicate MarksFit(text: string, m: Marks, kept: seq<int>, onlyDisabled: bool, parse: Parse) {
    var size := |CountedKeys(text, parse)|;
    |KeysOf(text, parse)| == size && forall j :: size <= j < |kept| ==> !Brings(m, kept[j], onlyDisabled)
  }

  /** Three keys of which the middle one is blank, the last one disabled: after the first is deleted, the column reads
      as one key, but time and reason still name number 1. */
  lemma {:induction false} LateMarksStay(parse: Parse, time: int, reason: string)
    requires forall text :: parse(text) == None
    ensures var keys, m := ["a", "", "b"], Marks(map[2 := AutoDisabled], map[2 := time], map[2 := reason]);
            var m' := Carry(Carry(Marks(map[], map[], map[]), 0, m, 1), 1, m, 2);
            && KeysOf("a\n\nb", parse) == keys && StoredText("a\n\nb", ["", "b"]) == "\nb"
            && CountedKeys("\nb", parse) == ["b"] && 1 in m'.time && 1 in m'.reason
            && !MarksFit("\nb", m, NumbersWithout(0, 3), false, parse)
  {
    BlankEdgeIsLost(parse);
    var m := Marks(map[2 := AutoDisabled], map[2 := time], map[2 := reason]);
    assert TextList.Join(["", "b"], '\n') == "" + ['\n'] + "b" by {
      assert ["", "b"][1..] == ["b"];
    }
    assert TextList.Trim("\nb", '\n') == "b" by {
      assert "\nb"[1..] == "b";
    }
    TextList.SplitOne("b", '\n');
    assert NumbersWithout(0, 1) == [] && NumbersWithout(0, 2) == [1] && NumbersWithout(0, 3) == [1, 2];
    assert NumbersWithout(0, 3)[1] == 2 && Brings(m, 2, false);
  }

  /** No state names a key beyond those that are counted and read. */
  ghost predicate StatesFit(text: string, m: Marks, parse: Parse) {
    var size := |CountedKeys(text, parse)|;
    && |KeysOf(text, parse)| == size && (forall i :: i in m.status ==> 0 <= i)
    && Below(m.time, size) && Below(m.reason, size)
  }

  /** The states without those of key i. */
  function Forget(m: Marks, i: int): Marks { Marks(m.status - {i}, m.time - {i}, m.reason - {i}) }

  lemma CountedIsMore(text: string, parse: Parse)
    ensures |KeysOf(text, parse)| <= |CountedKeys(text, parse)|
  {
  }

  /** Dropping the states beyond the count leaves those of keys, unless a number is negative. */
  lemma PrunedIsBelow(status: map<int, int>, size: nat)
    ensures Below((map i | i in status && i < size :: status[i]), size) <==> forall i :: i in status ==> 0 <= i
  {
    var pruned := map i | i in status && i < size :: status[i];
    assert forall i :: i in status && i < size ==> i in pruned;
  }

  lemma FitsIffBelow(m: Marks, before: Marks, kept: seq<int>, onlyDisabled: bool, size: int)
    requires CarriedOver(m, before, kept, onlyDisabled)
    ensures Below(m.time, size) && Below(m.reason, size) <==>
            forall j :: size <= j < |kept| && 0 <= j ==> !Brings(before, kept[j], onlyDisabled)
  {
  }

  /** If a key really goes, the remaining ones are read back exactly if they survive being written as lines. */
  lemma KeptIffSurvives(text: string, keys: seq<string>, parse: Parse)
    requires |keys| < |KeysOf(text, parse)|
    ensures KeysOf(StoredText(text, keys), parse) == keys <==> SurvivesStorage(keys, parse)
  {
  }

  // ----- the channel record -----

  /** A channel as it is stored. Nothing is assumed about it: a size or a state may be out of step with the keys, and
      every action says when the channel is aligned after it. */
  class Channel {
    var key: string
    var size: int
    var status: map<int, int>
    var time: map<int, int>
    var reason: map<int, string>
    const parse: Parse

    constructor (key: string, size: int, m: Marks, parse: Parse)
      ensures this.key == key && this.size == size && this.parse == parse && MarksOf() == m
    {
      this.key, this.size, this.parse := key, size, parse;
      status, time, reason := m.status, m.time, m.reason;
    }

    function View(): seq<Entry>
      reads this
    {
      Show(KeysOf(key, parse), status, time, reason)
    }

    function MarksOf(): Marks
      reads this
    {
      Marks(status, time, reason)
    }

    /** The size is the number of keys and every map index names a key. */
    ghost predicate Aligned()
      reads this
    {
      && size == |KeysOf(key, parse)| == |CountedKeys(key, parse)|
      && Below(status, size) && Below(time, size) && Below(reason, size)
    }

    /** channel.Update(): recount the keys of the new text (of the stored one when the new text is
        empty), drop status entries beyond the count, and write every column but an empty key. */
    method Update(key': string, status': map<int, int>, time': map<int, int>, reason': map<int, string>)
      modifies this
      ensures key == if key' == "" then old(key) else key'
      ensures size == |CountedKeys(key, parse)|
      ensures status == (map i | i in status' && i < size :: status'[i]) && time == time' && reason == reason'
    {
      var text := if key' == "" then key else key';
      size := |CountedKeys(text, parse)|;
      key, status, time, reason := text, map i | i in status' && i < size :: status'[i], time', reason';
    }

    /** disable_key. */
    method DisableKey(index: Option<int>) returns (ok: bool)
      modifies this
      ensures key == old(key)
      ensures ok <==> index.Some? && 0 <= index.value < old(size)
      ensures !ok ==> size == old(size) && MarksOf() == old(MarksOf())
      ensures ok ==>
                var i := index.value;
                && View() == Restated(old(View()), i, ManuallyDisabled, Get(old(time), i, 0), Get(old(reason), i, ""))
                && (Aligned() <==> StatesFit(old(key), old(MarksOf()), parse))
    {
      if index == None || index.value < 0 || index.value >= size {
        return false;
      }
      var status' := status[index.value := ManuallyDisabled];
      assert forall i :: i in status' <==> i in status || i == index.value;
      CountedIsMore(key, parse);
      PrunedIsBelow(status', |CountedKeys(key, parse)|);
      Update(key, status', time, reason);
      ok := true;
    }

    /** enable_key. */
    method EnableKey(index: Option<int>) returns (ok: bool)
      modifies this
      ensures key == old(key)
      ensures ok <==> index.Some? && 0 <= index.value < old(size)
      ensures !ok ==> size == old(size) && MarksOf() == old(MarksOf())
      ensures ok ==>
                && View() == Restated(old(View()), index.value, Enabled, 0, "")
                && (Aligned() <==> StatesFit(old(key), Forget(old(MarksOf()), index.value), parse))
    {
      if index == None || index.value < 0 || index.value >= size {
        return false;
      }
      CountedIsMore(key, parse);
      PrunedIsBelow(status - {index.value}, |CountedKeys(key, parse)|);
      Update(key, status - {index.value}, time - {index.value}, reason - {index.value});
      ok := true;
    }

    /** enable_all_keys: whatever was stored, nothing is left out of step but the count of an empty JSON array. */
    method EnableAllKeys() returns (enabledCount: int)
      modifies this
      ensures key == old(key) && enabledCount == |old(status)|
      ensures |View()| == |old(View())|
      ensures forall i :: 0 <= i < |View()| ==> View()[i] == Entry(old(View())[i].key, Enabled, 0, "")
      ensures Aligned() <==> |KeysOf(key, parse)| == |CountedKeys(key, parse)|
    {
      enabledCount := |status|;
      Update(key, map[], map[], map[]);
    }

    /** disable_all_keys: the keys below the stored size. */
    method DisableAllKeys() returns (disabledCount: int)
      modifies this
      ensures key == old(key) && |View()| == |old(View())|
      ensures forall i :: 0 <= i < |View()| ==>
                View()[i] == if old(View())[i].status != Enabled || i >= old(size) then old(View())[i]
                             else Entry(old(View())[i].key, ManuallyDisabled, Get(old(time), i, 0),
                                        Get(old(reason), i, ""))
      ensures disabledCount == |EnabledBelow(old(status), old(size))|
      ensures old(size) == |old(View())| ==>
                disabledCount == |set i | 0 <= i < |old(View())| && old(View())[i].status == Enabled|
      ensures if disabledCount == 0 then size == old(size) && MarksOf() == old(MarksOf())
              else Aligned() <==> StatesFit(old(key), old(MarksOf()), parse)
    {
      var status';
      status', disabledCount := DisableEnabled(status, size);
      assert size == |View()| ==>
          (set i | 0 <= i < |View()| && View()[i].status == Enabled) == EnabledBelow(status, size);
      if disabledCount == 0 {
        forall i | 0 <= i < |View()| && i < size ensures View()[i].status != Enabled {
          assert i !in EnabledBelow(status, size);
        }
        return;
      }
      CountedIsMore(key, parse);
      PrunedIsBelow(status', |CountedKeys(key, parse)|);
      Update(key, status', time, reason);
    }

    /** Writes the keys that a deletion leaves, with their states. */
    method StoreRemaining(keys: seq<string>, m: Marks, ghost before: Marks, ghost kept: seq<int>,
                          ghost onlyDisabled: bool)
      requires MarksBelow(m, |keys|) && CarriedOver(m, before, kept, onlyDisabled)
      modifies this
      ensures key == StoredText(old(key), keys)
      ensures View() == ShowMarks(keys, m) <==> KeysOf(key, parse) == keys
      ensures Aligned() <==> MarksFit(key, before, kept, onlyDisabled, parse)
      ensures SurvivesStorage(keys, parse) ==> Aligned()
      ensures size == |CountedKeys(key, parse)| && Below(status, size)
      ensures keys == [] ==> key == old(key) && View() == Show(KeysOf(old(key), parse), map[], map[], map[])
    {
      Update(TextList.Join(keys, '\n'), m.status, m.time, m.reason);
      KeysOfShow(keys, m);
      KeysOfShow(KeysOf(key, parse), Marks(status, time, reason));
      FitsIffBelow(m, before, kept, onlyDisabled, size);
      CountedIsMore(key, parse);
      if SurvivesStorage(keys, parse) {
        assert keys != [] && size == |keys|;
        assert status == m.status;
      }
      if keys == [] {
        assert forall i :: Get(status, i, Enabled) == Enabled;
      }
    }

    /** delete_key. Seen through storage, exactly one key goes and every other keeps its state, if and
        only if the remaining keys survive being written as lines. A number beyond the keys deletes none. */
    method DeleteKey(index: Option<int>) returns (ok: bool)
      modifies this
      ensures ok <==> index.Some? && 0 <= index.value < old(size) && Without(old(View()), index.value) != []
      ensures !ok ==> key == old(key) && size == old(size) && MarksOf() == old(MarksOf())
      ensures ok ==>
                var expected := Without(old(View()), index.value);
                && key == StoredText(old(key), KeysIn(expected))
                && (View() == expected <==> KeysOf(key, parse) == KeysIn(expected))
                && (index.value < |old(View())| ==>
                      (View() == expected <==> SurvivesStorage(KeysIn(expected), parse)))
                && (Aligned() <==>
                      MarksFit(key, old(MarksOf()), NumbersWithout(index.value, |old(View())|), false, parse))
                && (SurvivesStorage(KeysIn(expected), parse) ==> Aligned())
                && size == |CountedKeys(key, parse)| && Below(status, size)
    {
      if index == None || index.value < 0 || index.value >= size {
        return false;
      }
      var keys := KeysOf(key, parse);
      var remainingKeys, m := CopyWithout(keys, Marks(status, time, reason), index.value);
      KeysOfShow(remainingKeys, m);
      if |remainingKeys| == 0 {
        return false;
      }
      if index.value < |keys| {
        KeptIffSurvives(key, remainingKeys, parse);
      }
      StoreRemaining(remainingKeys, m, MarksOf(), NumbersWithout(index.value, |keys|), false);
      ok := true;
    }

    /** delete_disabled_keys. Seen through storage it is the filter that drops the automatically
        disabled keys, if and only if the remaining keys survive being written as lines. When none
        remains, the old keys stay and all of them come back enabled. */
    method DeleteDisabledKeys() returns (deletedCount: int)
      modifies this
      ensures deletedCount == |old(View())| - |DropAuto(old(View()))|
      ensures deletedCount == 0 ==> key == old(key) && size == old(size) && MarksOf() == old(MarksOf())
      ensures deletedCount > 0 ==>
                var expected := DropAuto(old(View()));
                && key == StoredText(old(key), KeysIn(expected))
                && (View() == expected <==> SurvivesStorage(KeysIn(expected), parse))
                && (forall e :: e in expected <==> e in old(View()) && e.status != AutoDisabled)
                && (Aligned() <==>
                      MarksFit(key, old(MarksOf()), NumbersKept(old(View()), |old(View())|), true, parse))
                && (SurvivesStorage(KeysIn(expected), parse) ==> Aligned())
                && size == |CountedKeys(key, parse)| && Below(status, size)
                && (expected == [] ==>
                      |View()| == |old(View())| &&
                      forall i :: 0 <= i < |View()| ==> View()[i] == Entry(old(View())[i].key, Enabled, 0, ""))
    {
      var remainingKeys, m;
      remainingKeys, m, deletedCount := CopyWithoutAuto(KeysOf(key, parse), Marks(status, time, reason));
      if deletedCount == 0 {
        return;
      }
      KeysOfShow(remainingKeys, m);
      DropAutoShrinks(View());
      KeptIffSurvives(key, remainingKeys, parse);
      StoreRemaining(remainingKeys, m, MarksOf(), NumbersKept(View(), |View()|), true);
    }
  }
}
