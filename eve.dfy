/**
 * The in-memory part of the EVE Online static-data helper: localized text,
 * the type index keyed by id and by lowercased name, item and group search,
 * the item and ship lookups, and the text the results are shown to the
 * language model as. The records read from the data files are inputs.
 */
module EveHelper {
  import opened Wrappers
  import opened Text
  import opened Slices
  import opened OrderedMap

  /** A localizable field: a language-to-text dictionary, another truthy value (as `str()` shows it), or nothing. */
  datatype TextField = Localized(byLang: map<string, string>) | Scalar(shown: string) | Missing

  /** A record of the types file, reduced to the fields the helper reads. */
  datatype Item = Item(
    key: Option<int>,
    typeID: Option<int>,
    name: TextField,
    description: TextField,
    groupID: Option<int>,
    published: bool,
    mass: Option<string>,          // numeric attributes are carried as `str()` shows them
    volume: Option<string>,
    capacity: Option<string>,
    portionSize: Option<string>)

  /** A record of the groups file. */
  datatype Group = Group(key: Option<int>, groupID: Option<int>, name: TextField, categoryID: Option<int>, published: bool)

  /** What `search_items` reports per item. */
  datatype Summary = Summary(id: Option<int>, name: string, description: string, groupID: Option<int>,
                             mass: Option<string>, volume: Option<string>, published: bool)

  /** What `get_item_info` reports. */
  datatype ItemInfo = ItemInfo(id: int, name: string, description: string, groupID: Option<int>, mass: Option<string>,
                               volume: Option<string>, capacity: Option<string>, portionSize: Option<string>, published: bool)

  /** What `get_ship_info` reports. */
  datatype ShipInfo = ShipInfo(id: Option<int>, name: string, description: string, groupID: Option<int>,
                               mass: Option<string>, volume: Option<string>, capacity: Option<string>)

  /** What `search_groups` reports per group. */
  datatype GroupSummary = GroupSummary(id: Option<int>, name: string, categoryID: Option<int>, published: bool)

  const DescriptionLimit: nat := 200
  const SystemName := "#system"
  const NoResults := "No results found."

  /** The groups whose items count as ships. */
  const ShipGroups: seq<int> := [25, 26, 27, 28, 29, 30, 31, 237, 324, 358, 380, 381, 419, 420,
                                 463, 485, 513, 540, 541, 543, 547, 659, 830, 831, 832, 833, 834,
                                 883, 893, 894, 898, 900, 902, 906, 941, 963, 1022, 1201, 1202, 1283, 1527]

  /** `_get_localized_text(obj, lang)`. */
  function LocalizedText(t: TextField, lang: string): (r: string)
    ensures t.Localized? && lang in t.byLang ==> r == t.byLang[lang]
    ensures t.Localized? && lang !in t.byLang && "en" in t.byLang ==> r == t.byLang["en"]
    ensures t.Localized? && lang !in t.byLang && "en" !in t.byLang ==> r == ""
    ensures t.Scalar? ==> r == t.shown
    ensures t.Missing? ==> r == ""
  {
    match t
    case Localized(m) => if lang in m then m[lang] else if "en" in m then m["en"] else ""
    case Scalar(s) => s
    case Missing => ""
  }

  /** A present, non-zero id. */
  predicate Truthy(id: Option<int>)
  {
    id.Some? && id.value != 0
  }

  /** `a or b` on two optional ids. */
  function EitherId(a: Option<int>, b: Option<int>): (r: Option<int>)
    ensures Truthy(a) ==> r == a
    ensures !Truthy(a) ==> r == b
  {
    if Truthy(a) then a else b
  }

  /** `item.get('_key') or item.get('typeID')`. */
  function TypeIdOf(item: Item): Option<int>
  {
    EitherId(item.key, item.typeID)
  }

  /** The lowercased English name an item is indexed under. */
  function NameOf(item: Item): string
  {
    Lower(LocalizedText(item.name, "en"))
  }

  /** The name-index key of an item, if it gets one: it needs an id and a name other than "" and "#system". */
  function NameKey(item: Item): (r: Option<string>)
    ensures r.Some? <==> Truthy(TypeIdOf(item)) && NameOf(item) != "" && NameOf(item) != SystemName
    ensures r.Some? ==> r.value == NameOf(item) && Lower(r.value) == r.value
  {
    LowerIdempotent(LocalizedText(item.name, "en"));
    var name := NameOf(item);
    if Truthy(TypeIdOf(item)) && name != "" && name != SystemName then Some(name) else None
  }

  // ---------------------------------------------------------------- the type index

  /** The id index after the first records: each record with an id, the later one winning. */
  function TypeIndexOf(types: seq<Item>): map<int, Item>
    decreases |types|
  {
    if types == [] then map[]
    else
      var before := TypeIndexOf(types[..|types| - 1]);
      var item := types[|types| - 1];
      if Truthy(TypeIdOf(item)) then before[TypeIdOf(item).value := item] else before
  }

  /** The name index after one more record: appended to the list of its name, the name added last if new. */
  function AddByName(index: OMap<string, seq<Item>>, item: Item): OMap<string, seq<Item>>
  {
    var k := NameKey(item);
    if k.None? then index
    else
      var listed := Get(index, k.value);
      Put(index, k.value, (if listed.Some? then listed.value else []) + [item])
  }

  function NameIndexOf(types: seq<Item>): OMap<string, seq<Item>>
    decreases |types|
  {
    if types == [] then [] else AddByName(NameIndexOf(types[..|types| - 1]), types[|types| - 1])
  }

  /** Every id in the index is non-zero and maps to a record of the file that carries it. */
  lemma {:induction false} TypeIndexSound(types: seq<Item>)
    ensures forall id :: id in TypeIndexOf(types) ==>
      id != 0 && TypeIdOf(TypeIndexOf(types)[id]) == Some(id) && TypeIndexOf(types)[id] in types
    decreases |types|
  {
    if types != [] {
      var init := types[..|types| - 1];
      TypeIndexSound(init);
      var before := TypeIndexOf(init);
      forall id | id in before ensures before[id] in types {
        assert before[id] in init;
      }
    }
  }

  /** Every record with an id is reachable by it; the last record with an id is the one stored. */
  lemma {:induction false} TypeIndexComplete(types: seq<Item>, i: nat)
    requires i < |types| && Truthy(TypeIdOf(types[i]))
    ensures TypeIdOf(types[i]).value in TypeIndexOf(types)
    ensures (forall j :: i < j < |types| ==> TypeIdOf(types[j]) != TypeIdOf(types[i])) ==>
      TypeIndexOf(types)[TypeIdOf(types[i]).value] == types[i]
    decreases |types|
  {
    if i < |types| - 1 {
      var init := types[..|types| - 1];
      assert init[i] == types[i];
      TypeIndexComplete(init, i);
      if forall j :: i < j < |types| ==> TypeIdOf(types[j]) != TypeIdOf(types[i]) {
        assert forall j :: i < j < |init| ==> init[j] == types[j];
        assert TypeIdOf(types[|types| - 1]) != TypeIdOf(types[i]);
      }
    }
  }

  /** The name index is a dictionary whose keys are lowercase proper names and whose lists hold the records named so. */
  ghost predicate NameIndexValid(index: OMap<string, seq<Item>>, types: seq<Item>)
  {
    && Distinct(index)
    && (forall i :: 0 <= i < |index| ==> index[i].0 != "" && index[i].0 != SystemName && Lower(index[i].0) == index[i].0)
    && (forall i, x :: 0 <= i < |index| && x in index[i].1 ==> NameKey(x) == Some(index[i].0) && x in types)
  }

  lemma {:induction false} NameIndexSound(types: seq<Item>)
    ensures NameIndexValid(NameIndexOf(types), types)
    decreases |types|
  {
    if types != [] {
      var init := types[..|types| - 1];
      NameIndexSound(init);
      WiderFile(NameIndexOf(init), init, types);
      AddByNameValid(NameIndexOf(init), types[|types| - 1], types);
    }
  }

  /** Validity against a file carries over to a file with more records. */
  lemma WiderFile(index: OMap<string, seq<Item>>, small: seq<Item>, large: seq<Item>)
    requires NameIndexValid(index, small) && forall x :: x in small ==> x in large
    ensures NameIndexValid(index, large)
  {
  }

  /** Adding one record of the file keeps the name index valid. */
  lemma AddByNameValid(index: OMap<string, seq<Item>>, item: Item, types: seq<Item>)
    requires NameIndexValid(index, types) && item in types
    ensures NameIndexValid(AddByName(index, item), types)
  {
    var k := NameKey(item);
    if k.Some? {
      var after := AddByName(index, item);
      forall i, x | 0 <= i < |after| && x in after[i].1 ensures NameKey(x) == Some(after[i].0) && x in types {
        if i < |index| && index[i].0 != k.value {
          assert after[i] == index[i];
        } else if i < |index| {
          GetAt(index, i);
          assert after[i].1 == index[i].1 + [item];
        }
      }
    }
  }

  /** Every record with an id and a proper name is listed under that name. */
  lemma {:induction false} NameIndexComplete(types: seq<Item>, i: nat)
    requires i < |types| && NameKey(types[i]).Some?
    ensures exists j :: 0 <= j < |NameIndexOf(types)| && NameIndexOf(types)[j].0 == NameKey(types[i]).value
                        && types[i] in NameIndexOf(types)[j].1
    decreases |types|
  {
    var init := types[..|types| - 1];
    var item := types[|types| - 1];
    var before := NameIndexOf(init);
    var after := NameIndexOf(types);
    var key := NameKey(types[i]).value;
    NameIndexSound(init);
    if i < |types| - 1 {
      assert init[i] == types[i];
      NameIndexComplete(init, i);
      var j :| 0 <= j < |before| && before[j].0 == key && types[i] in before[j].1;
      if NameKey(item) == Some(key) {
        GetAt(before, j);
        assert after[j].1 == before[j].1 + [item];
      } else {
        assert after[j] == before[j];
      }
      assert after[j].0 == key && types[i] in after[j].1;
    } else {
      assert item == types[i] && NameKey(item) == Some(key);
      var listed := Get(before, key);
      assert after == Put(before, key, (if listed.Some? then listed.value else []) + [item]);
      if HasKey(before, key) {
        var j :| 0 <= j < |before| && before[j].0 == key;
        assert after[j] == (key, (if listed.Some? then listed.value else []) + [item]);
        assert after[j].0 == key && item in after[j].1;
      } else {
        assert after == before + [(key, [] + [item])];
        assert after[|before|].0 == key && item in after[|before|].1;
      }
    }
  }

  // ---------------------------------------------------------------- searching

  /** The published records of a list, in order. */
  function PublishedOf(items: seq<Item>): seq<Item>
    decreases |items|
  {
    if items == [] then []
    else
      var last := items[|items| - 1];
      PublishedOf(items[..|items| - 1]) + if last.published then [last] else []
  }

  /** What the search loop walks through: the published records under every name containing `q`, in index order. */
  function Matches(index: OMap<string, seq<Item>>, q: string): seq<Item>
    decreases |index|
  {
    if index == [] then []
    else
      var last := index[|index| - 1];
      Matches(index[..|index| - 1], q) + if Contains(last.0, q) then PublishedOf(last.1) else []
  }

  lemma {:induction false} PublishedOfPrefix(items: seq<Item>, j: nat)
    requires j <= |items|
    ensures PublishedOf(items[..j]) <= PublishedOf(items)
    decreases |items|
  {
    if j < |items| {
      var init := items[..|items| - 1];
      assert items[..j] == init[..j];
      PublishedOfPrefix(init, j);
    } else {
      assert items[..j] == items;
    }
  }

  lemma {:induction false} PublishedOfSound(items: seq<Item>)
    ensures forall x :: x in PublishedOf(items) ==> x.published && x in items
    ensures forall x :: x in items && x.published ==> x in PublishedOf(items)
    decreases |items|
  {
    if items != [] {
      var init := items[..|items| - 1];
      PublishedOfSound(init);
      assert forall x :: x in items ==> x in init || x == items[|items| - 1];
    }
  }

  lemma {:induction false} MatchesPrefix(index: OMap<string, seq<Item>>, q: string, i: nat)
    requires i <= |index|
    ensures Matches(index[..i], q) <= Matches(index, q)
    decreases |index|
  {
    if i < |index| {
      var init := index[..|index| - 1];
      assert index[..i] == init[..i];
      MatchesPrefix(init, q, i);
    } else {
      assert index[..i] == index;
    }
  }

  /** A record the search finds is published and listed under a name containing the query; and every such record is found. */
  lemma {:induction false} MatchesSound(index: OMap<string, seq<Item>>, q: string)
    ensures forall x :: x in Matches(index, q) ==>
      x.published && exists i :: 0 <= i < |index| && Contains(index[i].0, q) && x in index[i].1
    ensures forall i, x :: 0 <= i < |index| && Contains(index[i].0, q) && x in index[i].1 && x.published ==>
      x in Matches(index, q)
    decreases |index|
  {
    if index != [] {
      var init := index[..|index| - 1];
      var last := index[|index| - 1];
      MatchesSound(init, q);
      PublishedOfSound(last.1);
      forall x | x in Matches(index, q)
        ensures x.published && exists i :: 0 <= i < |index| && Contains(index[i].0, q) && x in index[i].1
      {
        if x in Matches(init, q) {
          var i :| 0 <= i < |init| && Contains(init[i].0, q) && x in init[i].1;
          assert index[i] == init[i];
        } else {
          assert x in PublishedOf(last.1) && Contains(last.0, q);
          assert index[|index| - 1] == last;
        }
      }
      forall i, x | 0 <= i < |index| && Contains(index[i].0, q) && x in index[i].1 && x.published
        ensures x in Matches(index, q)
      {
        if i < |init| {
          assert init[i] == index[i];
        }
      }
    }
  }

  /** Every item `search_items` can report is published and has a lowercased name containing the lowercased query. */
  lemma SearchItemsSound(types: seq<Item>, query: string)
    ensures forall x :: x in Matches(NameIndexOf(types), Lower(query)) ==>
      x.published && x in types && Contains(NameOf(x), Lower(query))
  {
    forall x | x in Matches(NameIndexOf(types), Lower(query))
      ensures x.published && x in types && Contains(NameOf(x), Lower(query))
    {
      SearchItemSound(types, Lower(query), x);
    }
  }

  lemma SearchItemSound(types: seq<Item>, q: string, x: Item)
    requires x in Matches(NameIndexOf(types), q)
    ensures x.published && x in types && Contains(NameOf(x), q)
  {
    var index := NameIndexOf(types);
    assert x.published && exists i :: 0 <= i < |index| && Contains(index[i].0, q) && x in index[i].1 by {
      MatchesSound(index, q);
    }
    var i :| 0 <= i < |index| && Contains(index[i].0, q) && x in index[i].1;
    assert NameKey(x) == Some(index[i].0) && x in types by {
      NameIndexSound(types);
    }
  }

  /** The item a search reports: its id, English name and description cut to 200 characters. */
  function Summarize(item: Item): (r: Summary)
    ensures |r.description| <= DescriptionLimit
    ensures r.id == TypeIdOf(item) && r.name == LocalizedText(item.name, "en") && r.published == item.published
  {
    Summary(TypeIdOf(item), LocalizedText(item.name, "en"), Prefix(LocalizedText(item.description, "en"), DescriptionLimit),
            item.groupID, item.mass, item.volume, item.published)
  }

  /** The result count at which a search stops: `limit`, but never below one, since the test follows an append. */
  function Bound(limit: int): (r: nat)
    ensures r >= 1 && r >= limit
    ensures limit >= 1 ==> r == limit
  {
    if limit >= 1 then limit else 1
  }

  lemma PrefixAfter<T>(a: seq<T>, b: seq<T>, c: seq<T>)
    requires b <= c
    ensures a + b <= a + c
  {
    assert (a + c)[..|a + b|] == a + c[..|b|];
  }

  /** Cutting a list to the length of one of its prefixes gives that prefix. */
  lemma SliceOfPrefix<T>(p: seq<T>, s: seq<T>, n: nat)
    requires p <= s && |p| == n
    ensures SliceTo(s, n) == p
  {
  }

  /** A prefix of a list as it grows by one, when the prefix grows by one. */
  lemma MapSeqSnoc<A, B>(s: seq<A>, x: A, f: A -> B)
    ensures MapSeq(s + [x], f) == MapSeq(s, f) + [f(x)]
  {
    assert (s + [x])[..|s|] == s;
  }

  /** `search_groups`' matches: the groups whose English name contains `q` after lowercasing. */
  predicate GroupMatch(g: Group, q: string)
  {
    Contains(Lower(LocalizedText(g.name, "en")), q)
  }

  function GroupMatches(groups: seq<Group>, q: string): seq<Group>
    decreases |groups|
  {
    if groups == [] then []
    else
      var last := groups[|groups| - 1];
      GroupMatches(groups[..|groups| - 1], q) + if GroupMatch(last, q) then [last] else []
  }

  /** Exactly the matching groups are found. */
  lemma {:induction false} GroupMatchesSound(groups: seq<Group>, q: string)
    ensures forall g :: g in GroupMatches(groups, q) ==> g in groups && GroupMatch(g, q)
    ensures forall g :: g in groups && GroupMatch(g, q) ==> g in GroupMatches(groups, q)
    decreases |groups|
  {
    if groups != [] {
      GroupMatchesSound(groups[..|groups| - 1], q);
      assert forall g :: g in groups ==> g in groups[..|groups| - 1] || g == groups[|groups| - 1];
    }
  }

  function SummarizeGroup(g: Group): (r: GroupSummary)
    ensures r.id == EitherId(g.key, g.groupID) && r.name == LocalizedText(g.name, "en")
  {
    GroupSummary(EitherId(g.key, g.groupID), LocalizedText(g.name, "en"), g.categoryID, g.published)
  }

  lemma {:induction false} GroupMatchesPrefix(groups: seq<Group>, q: string, i: nat)
    requires i <= |groups|
    ensures GroupMatches(groups[..i], q) <= GroupMatches(groups, q)
    decreases |groups|
  {
    if i < |groups| {
      var init := groups[..|groups| - 1];
      assert groups[..i] == init[..i];
      GroupMatchesPrefix(init, q, i);
    } else {
      assert groups[..i] == groups;
    }
  }

  // ---------------------------------------------------------------- ships

  predicate IsShip(item: Item)
  {
    item.groupID.Some? && item.groupID.value in ShipGroups && item.published
  }

  /** The first ship in a list. */
  function FirstShipIn(items: seq<Item>): (r: Option<Item>)
    ensures r.Some? ==> IsShip(r.value) && r.value in items
    ensures r.None? ==> forall x :: x in items ==> !IsShip(x)
    decreases |items|
  {
    if items == [] then None
    else
      var before := FirstShipIn(items[..|items| - 1]);
      var last := items[|items| - 1];
      assert forall x :: x in items ==> x in items[..|items| - 1] || x == last;
      if before.Some? then before else if IsShip(last) then Some(last) else None
  }

  /** The first ship under a name containing `q`, in index order. */
  function FirstShip(index: OMap<string, seq<Item>>, q: string): Option<Item>
    decreases |index|
  {
    if index == [] then None
    else
      var before := FirstShip(index[..|index| - 1], q);
      var last := index[|index| - 1];
      if before.Some? then before
      else if Contains(last.0, q) then FirstShipIn(last.1)
      else None
  }

  /** The ship found is a published ship listed under a matching name; finding none means there is none. */
  lemma {:induction false} FirstShipSound(index: OMap<string, seq<Item>>, q: string)
    ensures var r := FirstShip(index, q);
      r.Some? ==> IsShip(r.value) && exists i :: 0 <= i < |index| && Contains(index[i].0, q) && r.value in index[i].1
    ensures FirstShip(index, q).None? ==>
      forall i, x :: 0 <= i < |index| && Contains(index[i].0, q) && x in index[i].1 ==> !IsShip(x)
    decreases |index|
  {
    if index != [] {
      var init := index[..|index| - 1];
      var last := index[|index| - 1];
      FirstShipSound(init, q);
      var r := FirstShip(index, q);
      if FirstShip(init, q).Some? {
        var i :| 0 <= i < |init| && Contains(init[i].0, q) && r.value in init[i].1;
        assert index[i] == init[i];
      } else if r.Some? {
        assert index[|index| - 1] == last;
      } else {
        forall i, x | 0 <= i < |index| && Contains(index[i].0, q) && x in index[i].1 ensures !IsShip(x) {
          if i < |init| {
            assert index[i] == init[i];
          }
        }
      }
    }
  }

  lemma {:induction false} FirstShipInPrefix(items: seq<Item>, j: nat)
    requires j <= |items| && FirstShipIn(items[..j]).Some?
    ensures FirstShipIn(items) == FirstShipIn(items[..j])
    decreases |items|
  {
    if j < |items| {
      var init := items[..|items| - 1];
      assert items[..j] == init[..j];
      FirstShipInPrefix(init, j);
    } else {
      assert items[..j] == items;
    }
  }

  lemma {:induction false} FirstShipPrefix(index: OMap<string, seq<Item>>, q: string, i: nat)
    requires i <= |index| && FirstShip(index[..i], q).Some?
    ensures FirstShip(index, q) == FirstShip(index[..i], q)
    decreases |index|
  {
    if i < |index| {
      var init := index[..|index| - 1];
      assert index[..i] == init[..i];
      FirstShipPrefix(init, q, i);
    } else {
      assert index[..i] == index;
    }
  }

  function ShipInfoOf(item: Item): (r: ShipInfo)
    ensures r.id == TypeIdOf(item) && r.name == LocalizedText(item.name, "en") && r.groupID == item.groupID
  {
    ShipInfo(TypeIdOf(item), LocalizedText(item.name, "en"), LocalizedText(item.description, "en"),
             item.groupID, item.mass, item.volume, item.capacity)
  }

  // ---------------------------------------------------------------- showing results to the model

  /** `str()` of an optional value. */
  function Shown(v: Option<string>): string
  {
    if v.Some? then v.value else "None"
  }

  function ShownId(v: Option<int>): string
  {
    if v.Some? then IntToString(v.value) else "None"
  }

  /** The block for the `n`-th result. */
  function Entry(n: nat, r: Summary): string
  {
    NatToString(n) + ". **" + r.name + "**"
    + (if r.description != "" then "\n   " + Prefix(r.description, DescriptionLimit) + "..." else "")
    + "\n   ID: " + ShownId(r.id) + " | Mass: " + Shown(r.mass) + " | Volume: " + Shown(r.volume) + "\n\n"
  }

  /** The blocks of all results, numbered from one. */
  function Entries(rs: seq<Summary>): string
    decreases |rs|
  {
    if rs == [] then "" else Entries(rs[..|rs| - 1]) + Entry(|rs|, rs[|rs| - 1])
  }

  /** `format_results_for_llm(results, context)`. */
  function FormatResults(rs: seq<Summary>, context: string): (r: string)
    ensures rs == [] ==> r == context + NoResults
    ensures rs != [] ==> r == Header(context, |rs|) + Entries(rs)
  {
    if rs == [] then context + NoResults else Header(context, |rs|) + Entries(rs)
  }

  function Header(context: string, n: nat): string
  {
    context + "Found " + NatToString(n) + " results:\n\n"
  }

  /** The blocks appear in result order: the first `i` blocks, then the block of result `i + 1`, open the text. */
  lemma {:induction false} EntriesInOrder(rs: seq<Summary>, i: nat)
    requires i < |rs|
    ensures Entries(rs[..i]) + Entry(i + 1, rs[i]) <= Entries(rs)
    decreases |rs|
  {
    var init := rs[..|rs| - 1];
    if i < |rs| - 1 {
      assert rs[..i] == init[..i] && rs[i] == init[i];
      EntriesInOrder(init, i);
    } else {
      assert rs[..i] == init;
    }
  }

  // ---------------------------------------------------------------- the helper object

  class Helper {
    const types: seq<Item>
    const groups: seq<Group>
    var built: bool
    var typeIndex: map<int, Item>
    var nameIndex: OMap<string, seq<Item>>

    ghost predicate Valid()
      reads this
    {
      && (built ==> typeIndex == TypeIndexOf(types) && nameIndex == NameIndexOf(types))
      && (!built ==> typeIndex == map[] && nameIndex == [])
    }

    /** The helper over the records of the two data files, before any index exists. */
    constructor (types: seq<Item>, groups: seq<Group>)
      ensures Valid() && !built && this.types == types && this.groups == groups
    {
      this.types, this.groups := types, groups;
      built, typeIndex, nameIndex := false, map[], [];
    }

    /** `_build_type_index`: builds both indices once; later calls change nothing. */
    method BuildTypeIndex()
      requires Valid()
      modifies this`built, this`typeIndex, this`nameIndex
      ensures Valid() && built
      ensures old(built) ==> typeIndex == old(typeIndex) && nameIndex == old(nameIndex)
    {
      if built {
        return;
      }
      typeIndex, nameIndex := map[], [];
      for i := 0 to |types|
        invariant typeIndex == TypeIndexOf(types[..i]) && nameIndex == NameIndexOf(types[..i])
      {
        var item := types[i];
        assert types[..i + 1][..i] == types[..i];
        var id := TypeIdOf(item);
        if Truthy(id) {
          typeIndex := typeIndex[id.value := item];
          var name := Lower(LocalizedText(item.name, "en"));
          if name != "" && name != SystemName {
            var listed := Get(nameIndex, name);
            nameIndex := Put(nameIndex, name, (if listed.Some? then listed.value else []) + [item]);
          }
        }
      }
      assert types[..|types|] == types;
      built := true;
    }

    /** `search_items`: the published items under matching names, in index order, at most `limit` (at least one). */
    method SearchItems(query: string, limit: int) returns (results: seq<Summary>)
      requires Valid()
      modifies this`built, this`typeIndex, this`nameIndex
      ensures Valid() && built
      ensures results == MapSeq(SliceTo(Matches(NameIndexOf(types), Lower(query)), Bound(limit)), Summarize)
      ensures |results| <= Bound(limit)
    {
      BuildTypeIndex();
      results := SearchIndex(nameIndex, Lower(query), limit);
    }

    /** `get_item_info`: the indexed record with this id, or nothing. */
    method GetItemInfo(itemId: int) returns (info: Option<ItemInfo>)
      requires Valid()
      modifies this`built, this`typeIndex, this`nameIndex
      ensures Valid() && built
      ensures info.None? <==> itemId !in TypeIndexOf(types)
      ensures info.Some? ==> info.value == InfoOf(itemId, TypeIndexOf(types)[itemId])
    {
      BuildTypeIndex();
      if itemId !in typeIndex {
        return None;
      }
      return Some(InfoOf(itemId, typeIndex[itemId]));
    }

    /** The inner loop of `get_ship_info`: the first published ship among one name's items. */
    static method FirstShipAmong(items: seq<Item>) returns (ship: Option<Item>)
      ensures ship == FirstShipIn(items)
    {
      for j := 0 to |items|
        invariant FirstShipIn(items[..j]).None?
      {
        assert items[..j + 1][..j] == items[..j];
        if items[j].groupID.Some? && items[j].groupID.value in ShipGroups && items[j].published {
          assert FirstShipIn(items[..j + 1]) == Some(items[j]);
          FirstShipInPrefix(items, j + 1);
          return Some(items[j]);
        }
      }
      assert items[..|items|] == items;
      return None;
    }

    /** `get_ship_info`: the first published ship under a name containing the query. */
    method GetShipInfo(shipName: string) returns (info: Option<ShipInfo>)
      requires Valid()
      modifies this`built, this`typeIndex, this`nameIndex
      ensures Valid() && built
      ensures var ship := FirstShip(NameIndexOf(types), Lower(shipName));
        info == if ship.Some? then Some(ShipInfoOf(ship.value)) else None
    {
      BuildTypeIndex();
      var ship := FindShip(nameIndex, Lower(shipName));
      info := if ship.Some? then Some(ShipInfoOf(ship.value)) else None;
    }

    /** The loops of `get_ship_info`: names in index order, and within a name its items. */
    static method FindShip(index: OMap<string, seq<Item>>, q: string) returns (ship: Option<Item>)
      ensures ship == FirstShip(index, q)
    {
      for i := 0 to |index|
        invariant FirstShip(index[..i], q).None?
      {
        var name, items := index[i].0, index[i].1;
        assert index[..i + 1][..i] == index[..i];
        if Contains(name, q) {
          ship := FirstShipAmong(items);
          if ship.Some? {
            assert FirstShip(index[..i + 1], q) == ship;
            FirstShipPrefix(index, q, i + 1);
            return;
          }
        }
      }
      assert index[..|index|] == index;
      return None;
    }

    /** `search_groups`: walks the groups file, stopping once `limit` results are collected. */
    method SearchGroups(query: string, limit: int) returns (results: seq<GroupSummary>)
      ensures results == MapSeq(SliceTo(GroupMatches(groups, Lower(query)), Bound(limit)), SummarizeGroup)
      ensures |results| <= Bound(limit)
    {
      var q := Lower(query);
      results := [];
      ghost var found: seq<Group> := [];
      var i := 0;
      while i < |groups|
        invariant 0 <= i <= |groups|
        invariant found == GroupMatches(groups[..i], q) && |found| < Bound(limit)
        invariant results == MapSeq(found, SummarizeGroup)
      {
        var g := groups[i];
        assert groups[..i + 1][..i] == groups[..i];
        if GroupMatch(g, q) {
          MapSeqSnoc(found, g, SummarizeGroup);
          results := results + [SummarizeGroup(g)];
          found := found + [g];
          assert found == GroupMatches(groups[..i + 1], q);
          if |results| >= limit {
            GroupMatchesPrefix(groups, q, i + 1);
            SliceOfPrefix(found, GroupMatches(groups, q), Bound(limit));
            return;
          }
        }
        i := i + 1;
      }
      assert groups[..i] == groups;
    }
  }

  /** The loop of `search_items` over the name index, returning as soon as `limit` results are collected. */
  method SearchIndex(index: OMap<string, seq<Item>>, q: string, limit: int) returns (results: seq<Summary>)
    ensures results == MapSeq(SliceTo(Matches(index, q), Bound(limit)), Summarize)
    ensures |results| <= Bound(limit)
  {
    results := [];
    ghost var seen: seq<Item> := [];
    for i := 0 to |index|
      invariant seen == Matches(index[..i], q) && |seen| < Bound(limit)
      invariant results == MapSeq(seen, Summarize)
    {
      var name, items := index[i].0, index[i].1;
      assert index[..i + 1][..i] == index[..i] && index[..i + 1][i] == (name, items);
      if Contains(name, q) {
        var done;
        ghost var before := seen;
        results, seen, done := TakePublished(items, results, seen, limit);
        assert Matches(index[..i + 1], q) == before + PublishedOf(items);
        if done {
          MatchesPrefix(index, q, i + 1);
          SliceOfPrefix(seen, Matches(index, q), Bound(limit));
          return;
        }
      }
    }
    assert index[..|index|] == index;
  }

  /** The inner loop of `search_items`: appends the published records of one list, stopping at `limit`. */
  method TakePublished(items: seq<Item>, results0: seq<Summary>, ghost seen0: seq<Item>, limit: int)
    returns (results: seq<Summary>, ghost seen: seq<Item>, done: bool)
    requires results0 == MapSeq(seen0, Summarize) && |seen0| < Bound(limit)
    ensures results == MapSeq(seen, Summarize)
    ensures done ==> |seen| == Bound(limit) && seen <= seen0 + PublishedOf(items)
    ensures !done ==> seen == seen0 + PublishedOf(items) && |seen| < Bound(limit)
  {
    results, seen, done := results0, seen0, false;
    for j := 0 to |items|
      invariant seen == seen0 + PublishedOf(items[..j]) && |seen| < Bound(limit)
      invariant results == MapSeq(seen, Summarize)
    {
      assert items[..j + 1][..j] == items[..j];
      assert PublishedOf(items[..j + 1]) == PublishedOf(items[..j]) + if items[j].published then [items[j]] else [];
      if items[j].published {
        MapSeqSnoc(seen, items[j], Summarize);
        results := results + [Summarize(items[j])];
        seen := seen + [items[j]];
        assert seen == seen0 + PublishedOf(items[..j + 1]);
        if |results| >= limit {
          PublishedOfPrefix(items, j + 1);
          PrefixAfter(seen0, PublishedOf(items[..j + 1]), PublishedOf(items));
          assert |seen| == Bound(limit);
          done := true;
          return;
        }
      }
    }
    assert items[..|items|] == items;
  }

  /** What `get_item_info` reports for a record found under `id`. */
  function InfoOf(id: int, item: Item): (r: ItemInfo)
    ensures r.id == id && r.name == LocalizedText(item.name, "en") && r.description == LocalizedText(item.description, "en")
    ensures r.published == item.published && r.groupID == item.groupID
  {
    ItemInfo(id, LocalizedText(item.name, "en"), LocalizedText(item.description, "en"), item.groupID,
             item.mass, item.volume, item.capacity, item.portionSize, item.published)
  }
}
