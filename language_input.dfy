/**
  desktop/src/components/LanguageInput.tsx: the language picker. It builds one entry per
  language of the table with a translated label, sorts the entries by label and then
  splits them, keeping the sorted order, into a "popular" group (the interface language,
  `auto` and `english`) and an "others" group. The translation function and the label
  comparison (`localeCompare`) are parameters.
*/
module LanguageInput {

  /** An entry of the picker: translated label, language name, whisper code. */
  datatype Entry = Entry(labelText: string, name: string, code: string)

  /** What an option of either group keeps of its entry. */
  datatype Choice = Choice(labelText: string, code: string)

  /** The label comparison, as "a sorts no later than b". */
  type LabelOrder = (string, string) -> bool

  /** localeCompare is taken to be a total preorder on labels. */
  ghost predicate TotalPreorder(le: LabelOrder) {
    (forall a, b :: le(a, b) || le(b, a))
    && (forall a, b, c :: le(a, b) && le(b, c) ==> le(a, c))
  }

  /** The translation key of a language name. */
  function LabelKey(name: string): string {
    "language." + name
  }

  /** Object.entries(...).map(...): one entry per table pair, in table order. */
  function Entries(table: seq<(string, string)>, t: string -> string): (r: seq<Entry>)
    ensures |r| == |table|
    ensures forall i :: 0 <= i < |r| ==>
      r[i].name == table[i].0 && r[i].code == table[i].1 && r[i].labelText == t(LabelKey(table[i].0))
  {
    seq(|table|, i requires 0 <= i < |table| => Entry(t(LabelKey(table[i].0)), table[i].0, table[i].1))
  }

  // ---------------------------------------------------------------- sorting

  predicate SortedByLabel(s: seq<Entry>, le: LabelOrder) {
    forall i, j :: 0 <= i < j < |s| ==> le(s[i].labelText, s[j].labelText)
  }

  /** Places `x` before the first entry it sorts no later than: ahead of its equals, which came later. */
  function Insert(x: Entry, s: seq<Entry>, le: LabelOrder): (r: seq<Entry>)
    ensures multiset(r) == multiset(s) + multiset{x}
    ensures |r| == |s| + 1
  {
    if s == [] then [x]
    else if le(x.labelText, s[0].labelText) then [x] + s
    else
      assert s == [s[0]] + s[1..];
      [s[0]] + Insert(x, s[1..], le)
  }

  /** entries.sort by label, written as an insertion sort. */
  function SortByLabel(s: seq<Entry>, le: LabelOrder): (r: seq<Entry>)
    ensures multiset(r) == multiset(s)
  {
    if s == [] then []
    else
      assert s == [s[0]] + s[1..];
      Insert(s[0], SortByLabel(s[1..], le), le)
  }

  lemma {:induction false} InsertSorted(x: Entry, s: seq<Entry>, le: LabelOrder)
    requires TotalPreorder(le) && SortedByLabel(s, le)
    ensures SortedByLabel(Insert(x, s, le), le)
  {
    if s == [] {
      assert Insert(x, s, le) == [x];
    } else if le(x.labelText, s[0].labelText) {
      forall j | 0 <= j < |s| ensures le(x.labelText, s[j].labelText) {
        if j > 0 {
          Transitive(le, x.labelText, s[0].labelText, s[j].labelText);
        }
      }
      ConsSorted(x, s, le);
    } else {
      var rest := Insert(x, s[1..], le);
      assert SortedByLabel(s[1..], le);
      InsertSorted(x, s[1..], le);
      Total(le, x.labelText, s[0].labelText);
      forall j | 0 <= j < |rest| ensures le(s[0].labelText, rest[j].labelText) {
        var y := rest[j];
        assert y in multiset(rest);
        assert y == x || y in s[1..];
      }
      ConsSorted(s[0], rest, le);
    }
  }

  /** An entry that sorts no later than every entry of a sorted list can go in front of it. */
  lemma ConsSorted(x: Entry, s: seq<Entry>, le: LabelOrder)
    requires SortedByLabel(s, le)
    requires forall j :: 0 <= j < |s| ==> le(x.labelText, s[j].labelText)
    ensures SortedByLabel([x] + s, le)
  {
    var r := [x] + s;
    forall i, j | 0 <= i < j < |r| ensures le(r[i].labelText, r[j].labelText) {
      if i == 0 {
        assert r[j] == s[j - 1];
      } else {
        assert r[i] == s[i - 1] && r[j] == s[j - 1];
      }
    }
  }

  lemma Total(le: LabelOrder, a: string, b: string)
    requires TotalPreorder(le)
    ensures le(a, b) || le(b, a)
  {
  }

  lemma Transitive(le: LabelOrder, a: string, b: string, c: string)
    requires TotalPreorder(le) && le(a, b) && le(b, c)
    ensures le(a, c)
  {
  }

  /** The sorted entries are in label order and hold exactly the entries given. */
  lemma {:induction false} SortSorts(s: seq<Entry>, le: LabelOrder)
    requires TotalPreorder(le)
    ensures SortedByLabel(SortByLabel(s, le), le)
    ensures multiset(SortByLabel(s, le)) == multiset(s)
  {
    if s != [] {
      SortSorts(s[1..], le);
      InsertSorted(s[0], SortByLabel(s[1..], le), le);
    }
  }

  /** Entries already in label order come out of the sort unchanged. */
  lemma {:induction false} SortedUnchanged(s: seq<Entry>, le: LabelOrder)
    requires SortedByLabel(s, le)
    ensures SortByLabel(s, le) == s
  {
    if s != [] {
      assert SortedByLabel(s[1..], le);
      SortedUnchanged(s[1..], le);
      assert s == [s[0]] + s[1..];
    }
  }

  // ---------------------------------------------------------------- grouping

  /** The popular names: the interface language's name, `auto` and `english`. */
  function PopularNames(i18nName: string): seq<string> {
    [i18nName, "auto", "english"]
  }

  /** The entries of `s`, in order, whose name is (`wanted`) or is not (`!wanted`) popular. */
  function Picked(s: seq<Entry>, popular: seq<string>, wanted: bool): (r: seq<Entry>)
    ensures |r| <= |s|
  {
    if s == [] then []
    else Picked(s[..|s| - 1], popular, wanted) + (if (s[|s| - 1].name in popular) == wanted then [s[|s| - 1]] else [])
  }

  /** What the options of a group show. */
  function ChoicesOf(group: seq<Entry>): (r: seq<Choice>)
    ensures |r| == |group|
    ensures forall i :: 0 <= i < |r| ==> r[i] == Choice(group[i].labelText, group[i].code)
  {
    seq(|group|, i requires 0 <= i < |group| => Choice(group[i].labelText, group[i].code))
  }

  /** The forEach: pushes each sorted entry onto the popular or the other group. */
  method Group(sorted: seq<Entry>, i18nName: string) returns (popularEntries: seq<Choice>, otherEntries: seq<Choice>)
    ensures popularEntries == ChoicesOf(Picked(sorted, PopularNames(i18nName), true))
    ensures otherEntries == ChoicesOf(Picked(sorted, PopularNames(i18nName), false))
  {
    var popular := PopularNames(i18nName);
    popularEntries, otherEntries := [], [];
    for i := 0 to |sorted|
      invariant popularEntries == ChoicesOf(Picked(sorted[..i], popular, true))
      invariant otherEntries == ChoicesOf(Picked(sorted[..i], popular, false))
    {
      assert sorted[..i + 1][..i] == sorted[..i];
      var e := sorted[i];
      if e.name in popular {
        popularEntries := popularEntries + [Choice(e.labelText, e.code)];
      } else {
        otherEntries := otherEntries + [Choice(e.labelText, e.code)];
      }
    }
    assert sorted[..|sorted|] == sorted;
  }

  /** The whole picker: entries, sorted, then grouped. */
  method Options(table: seq<(string, string)>, t: string -> string, le: LabelOrder, i18nName: string)
    returns (popularEntries: seq<Choice>, otherEntries: seq<Choice>)
    ensures popularEntries == ChoicesOf(Picked(SortByLabel(Entries(table, t), le), PopularNames(i18nName), true))
    ensures otherEntries == ChoicesOf(Picked(SortByLabel(Entries(table, t), le), PopularNames(i18nName), false))
  {
    var entries := Entries(table, t);
    var sorted := SortByLabel(entries, le);
    popularEntries, otherEntries := Group(sorted, i18nName);
  }

  /** Every entry lands in exactly one group: together the groups are the entries. */
  lemma {:induction false} PickedSplits(s: seq<Entry>, popular: seq<string>)
    ensures multiset(Picked(s, popular, true)) + multiset(Picked(s, popular, false)) == multiset(s)
    ensures |Picked(s, popular, true)| + |Picked(s, popular, false)| == |s|
  {
    if s != [] {
      var init := s[..|s| - 1];
      var last := s[|s| - 1];
      PickedSplits(init, popular);
      assert s == init + [last];
      assert multiset(s) == multiset(init) + multiset{last};
      var yes := Picked(init, popular, true);
      var no := Picked(init, popular, false);
      if last.name in popular {
        assert Picked(s, popular, true) == yes + [last];
        assert Picked(s, popular, false) == no + [];
        assert no + [] == no;
      } else {
        assert Picked(s, popular, true) == yes + [];
        assert yes + [] == yes;
        assert Picked(s, popular, false) == no + [last];
      }
    }
  }

  /** A group holds only entries of its own kind. */
  lemma {:induction false} PickedMembers(s: seq<Entry>, popular: seq<string>, wanted: bool)
    ensures forall e :: e in Picked(s, popular, wanted) ==> e in s && (e.name in popular) == wanted
  {
    if s != [] {
      var init := s[..|s| - 1];
      PickedMembers(init, popular, wanted);
      forall e | e in init ensures e in s {
        assert s == init + [s[|s| - 1]];
      }
    }
  }

  /** Each group keeps the order of the sorted entries. */
  lemma {:induction false} PickedKeepsOrder(s: seq<Entry>, popular: seq<string>, wanted: bool, le: LabelOrder)
    requires SortedByLabel(s, le)
    ensures SortedByLabel(Picked(s, popular, wanted), le)
  {
    if s != [] {
      var init := s[..|s| - 1];
      var last := s[|s| - 1];
      assert SortedByLabel(init, le);
      PickedKeepsOrder(init, popular, wanted, le);
      PickedMembers(init, popular, wanted);
      var head := Picked(init, popular, wanted);
      forall e | e in head ensures le(e.labelText, last.labelText) {
        var k :| 0 <= k < |init| && init[k] == e;
        assert s[k] == e;
      }
      var r := Picked(s, popular, wanted);
      forall i, j | 0 <= i < j < |r| ensures le(r[i].labelText, r[j].labelText) {
        if j < |head| {
          assert r[i] == head[i] && r[j] == head[j];
        } else {
          assert r[i] == head[i] && r[j] == last;
        }
      }
    }
  }

  /** The picker's groups: sorted by label, of the right kind, and together every language once. */
  lemma GroupsPartitionTable(table: seq<(string, string)>, t: string -> string, le: LabelOrder, i18nName: string)
    requires TotalPreorder(le)
    ensures var sorted := SortByLabel(Entries(table, t), le);
      var popular := Picked(sorted, PopularNames(i18nName), true);
      var others := Picked(sorted, PopularNames(i18nName), false);
      && SortedByLabel(popular, le) && SortedByLabel(others, le)
      && multiset(popular) + multiset(others) == multiset(Entries(table, t))
      && |popular| + |others| == |table|
      && (forall e :: e in popular ==> e.name in PopularNames(i18nName))
      && (forall e :: e in others ==> e.name !in PopularNames(i18nName))
  {
    var sorted := SortByLabel(Entries(table, t), le);
    SortSorts(Entries(table, t), le);
    PickedKeepsOrder(sorted, PopularNames(i18nName), true, le);
    PickedKeepsOrder(sorted, PopularNames(i18nName), false, le);
    PickedSplits(sorted, PopularNames(i18nName));
    PickedMembers(sorted, PopularNames(i18nName), true);
    PickedMembers(sorted, PopularNames(i18nName), false);
    assert |multiset(sorted)| == |Entries(table, t)|;
  }
}
