/** The recursive merge of a JSON overlay into a configuration. */
module ConfigMerge {
  import opened Wrappers

  datatype Json = Leaf(text: string) | Object(fields: map<string, Json>)

  type Fields = map<string, Json>

  function MergeValue(dst: Json, src: Json): Json
    decreases src, 1
  {
    if dst.Object? && src.Object? then Object(Merged(dst.fields, src.fields)) else src
  }

  function Merged(dst: Fields, src: Fields): Fields
    decreases Object(src), 0
  {
    map k | k in dst.Keys + src.Keys ::
      if k !in src then dst[k]
      else if k !in dst then src[k]
      else MergeValue(dst[k], src[k])
  }

  lemma MergedAt(dst: Fields, src: Fields, k: string)
    requires k in src
    ensures k in Merged(dst, src)
    ensures Merged(dst, src)[k] == if k in dst then MergeValue(dst[k], src[k]) else src[k]
  {}

  lemma MergedElsewhere(dst: Fields, src: Fields)
    ensures Merged(dst, src).Keys == dst.Keys + src.Keys
    ensures forall k :: k in dst && k !in src ==> Merged(dst, src)[k] == dst[k]
  {}

  /** The target while `keys` of the overlay are still to come. */
  ghost predicate Halfway(into: Fields, src: Fields, keys: set<string>, dst: Fields) {
    && keys <= src.Keys
    && (forall k :: k in dst <==> k in into || (k in src && k !in keys))
    && (forall k :: k in dst && (k in keys || k !in src) ==> dst[k] == into[k])
    && (forall k :: k in dst && k in src && k !in keys ==> dst[k] == Merged(into, src)[k])
  }

  lemma OneKey(into: Fields, src: Fields, keys: set<string>, dst: Fields, key: string, value: Json)
    requires Halfway(into, src, keys, dst) && key in keys
    requires value == if key in dst then MergeValue(dst[key], src[key]) else src[key]
    ensures Halfway(into, src, keys - {key}, dst[key := value])
  {
    MergedAt(into, src, key);
  }

  lemma AllKeys(into: Fields, src: Fields, dst: Fields)
    requires Halfway(into, src, {}, dst)
    ensures dst == Merged(into, src)
  {
    MergedElsewhere(into, src);
  }

  // ----- Merging in place

  /** A `map[string]any`: an object with identity, whose values may be such objects
      again. `repr` holds the table and every table below it. */
  class Table {
    var entries: map<string, Item>
    ghost var repr: set<Table>

    ghost predicate Valid()
      reads this, repr
      decreases repr
    {
      && this in repr
      && (forall k :: k in entries && entries[k].Sub? ==>
            var t := entries[k].table;
            t in repr && t.repr <= repr && this !in t.repr && t.Valid())
      && (forall k, l :: k in entries && l in entries && k != l && entries[k].Sub? && entries[l].Sub? ==>
            entries[k].table.repr !! entries[l].table.repr)
    }

    /** The document that the tables form. */
    ghost function View(): Fields
      requires Valid()
      reads this, repr
      decreases repr
    {
      map k | k in entries :: match entries[k] case Text(text) => Leaf(text) case Sub(table) => Object(table.View())
    }
  }

  datatype Item = Text(text: string) | Sub(table: Table)

  /** The tables of an item. */
  ghost function Tables(item: Item): set<Table>
    reads if item.Sub? then {item.table} else {}
  {
    if item.Sub? then item.table.repr else {}
  }

  /** An item of a valid table. */
  ghost predicate ItemValid(item: Item)
    reads if item.Sub? then {item.table} + item.table.repr else {}
  {
    item.Sub? ==> item.table in item.table.repr && item.table.Valid()
  }

  ghost function ItemView(item: Item): Json
    requires ItemValid(item)
    reads if item.Sub? then {item.table} + item.table.repr else {}
  {
    match item case Text(text) => Leaf(text) case Sub(table) => Object(table.View())
  }

  /** The table is valid but for its `repr`, which `added` completes. */
  ghost predicate AlmostValid(dst: Table, added: set<Table>)
    reads dst, set k | k in dst.entries && dst.entries[k].Sub? :: dst.entries[k].table
    reads set k, t | k in dst.entries && dst.entries[k].Sub? && t in dst.entries[k].table.repr :: t
  {
    && dst in dst.repr
    && (forall k :: k in dst.entries ==>
          ItemValid(dst.entries[k]) && Tables(dst.entries[k]) <= dst.repr + added && dst !in Tables(dst.entries[k]))
    && (forall k, l :: k in dst.entries && l in dst.entries && k != l ==>
          Tables(dst.entries[k]) !! Tables(dst.entries[l]))
  }

  /** What the items show. */
  ghost predicate Shows(dst: Table, view: Fields)
    reads dst, set k | k in dst.entries && dst.entries[k].Sub? :: dst.entries[k].table
    reads set k, t | k in dst.entries && dst.entries[k].Sub? && t in dst.entries[k].table.repr :: t
  {
    && view.Keys == dst.entries.Keys
    && (forall k :: k in dst.entries ==> ItemValid(dst.entries[k]) && ItemView(dst.entries[k]) == view[k])
  }

  lemma Completed(dst: Table, view: Fields)
    requires AlmostValid(dst, {}) && Shows(dst, view)
    ensures dst.Valid() && dst.View() == view
  {
    forall k | k in dst.entries && dst.entries[k].Sub?
      ensures dst.entries[k].table in dst.repr && dst.entries[k].table.repr <= dst.repr
              && dst !in dst.entries[k].table.repr
    {
      assert Tables(dst.entries[k]) == dst.entries[k].table.repr;
    }
    forall k, l | k in dst.entries && l in dst.entries && k != l && dst.entries[k].Sub? && dst.entries[l].Sub?
      ensures dst.entries[k].table.repr !! dst.entries[l].table.repr
    {
      assert Tables(dst.entries[k]) !! Tables(dst.entries[l]);
    }
  }

  lemma Parts(dst: Table)
    requires dst.Valid()
    ensures AlmostValid(dst, {}) && Shows(dst, dst.View())
  {}

  /** The table takes in the tables that its items share with the overlay. */
  ghost method TakeIn(dst: Table, added: set<Table>, view: Fields)
    requires AlmostValid(dst, added) && Shows(dst, view) && dst !in added
    modifies dst`repr
    ensures dst.Valid() && dst.View() == view && dst.repr == old(dst.repr) + added
  {
    dst.repr := dst.repr + added;
    Completed(dst, view);
  }

  /** The assignment itself. */
  method Assign(dst: Table, key: string, item: Item)
    requires dst.Valid() && ItemValid(item) && dst.repr !! Tables(item)
    modifies dst`entries
    ensures dst.entries == old(dst.entries)[key := item]
    ensures AlmostValid(dst, Tables(item)) && Shows(dst, old(dst.View())[key := old(ItemView(item))])
    ensures Tables(item) == old(Tables(item))
  {
    Parts(dst);
    dst.entries := dst.entries[key := item];
  }

  /** `dst[key] = item`. */
  method Put(dst: Table, key: string, item: Item)
    requires dst.Valid() && ItemValid(item) && dst.repr !! Tables(item)
    modifies dst
    ensures dst.Valid() && dst.repr == old(dst.repr) + old(Tables(item))
    ensures dst.entries == old(dst.entries)[key := item]
    ensures dst.View() == old(dst.View())[key := old(ItemView(item))]
  {
    ghost var view := dst.View()[key := ItemView(item)];
    Assign(dst, key, item);
    TakeIn(dst, Tables(item), view);
  }

  /** The tables under each key. */
  ghost function PartsOf(dst: Table): map<string, set<Table>>
    reads dst, set k | k in dst.entries && dst.entries[k].Sub? :: dst.entries[k].table
  {
    map k | k in dst.entries :: Tables(dst.entries[k])
  }

  /** The parts lie below the root, apart from each other. */
  ghost predicate Spread(parts: map<string, set<Table>>, root: Table, all: set<Table>) {
    && root in all
    && (forall k :: k in parts ==> root !in parts[k] && parts[k] <= all)
    && (forall k, l :: k in parts && l in parts && k != l ==> parts[k] !! parts[l])
  }

  lemma SpreadParts(dst: Table)
    requires AlmostValid(dst, {})
    ensures Spread(PartsOf(dst), dst, dst.repr)
  {}

  /** One part grew by tables that were not among any. */
  lemma SpreadGrows(parts: map<string, set<Table>>, root: Table, all: set<Table>, key: string, part: set<Table>,
                    added: set<Table>)
    requires Spread(parts, root, all) && key in parts && all !! added && part <= parts[key] + added
    ensures Spread(parts[key := part], root, all + added)
  {}

  lemma AlmostOf(dst: Table, added: set<Table>, parts: map<string, set<Table>>, view: Fields)
    requires PartsOf(dst) == parts && Spread(parts, dst, dst.repr + added) && dst in dst.repr && Shows(dst, view)
    ensures AlmostValid(dst, added)
  {
    forall k, l | k in dst.entries && l in dst.entries && k != l
      ensures Tables(dst.entries[k]) !! Tables(dst.entries[l])
    {
      assert parts[k] !! parts[l];
    }
    forall k | k in dst.entries
      ensures Tables(dst.entries[k]) <= dst.repr + added && dst !in Tables(dst.entries[k])
    {
      assert parts[k] == Tables(dst.entries[k]);
    }
  }

  lemma Rejoin(dst: Table, key: string, parts: map<string, set<Table>>, added: set<Table>, view: Fields)
    requires Spread(parts, dst, dst.repr) && dst.repr !! added && Shows(dst, view)
    requires key in parts && parts.Keys == dst.entries.Keys
    requires Tables(dst.entries[key]) <= parts[key] + added
    requires forall k :: k in parts && k != key ==> Tables(dst.entries[k]) == parts[k]
    ensures AlmostValid(dst, added)
  {
    var part := Tables(dst.entries[key]);
    SpreadGrows(parts, dst, dst.repr, key, part, added);
    assert PartsOf(dst) == parts[key := part];
    AlmostOf(dst, added, parts[key := part], view);
  }

  /** The recursive call; items apart from the target's tables stay as they are. */
  method MergeBeside(dst: Table, src: Table, ghost others: map<string, Item>)
    requires dst.Valid() && src.Valid() && dst.repr !! src.repr
    requires forall k :: k in others ==> ItemValid(others[k]) && Tables(others[k]) !! dst.repr
    modifies dst.repr
    ensures dst.Valid() && dst.repr <= old(dst.repr) + old(src.repr) && src.repr == old(src.repr)
    ensures dst.View() == Merged(old(dst.View()), old(src.View()))
    ensures forall k :: k in others ==>
              && ItemValid(others[k]) && Tables(others[k]) == old(Tables(others[k]))
              && ItemView(others[k]) == old(ItemView(others[k]))
    decreases src.repr, 3
  {
    DeepMerge(dst, src);
  }

  /** On the tables that target and overlay have under a key; the target's other
      tables stay as they are. */
  method MergeTables(dst: Table, key: string, overlay: Table)
    requires dst.Valid() && overlay.Valid() && dst.repr !! overlay.repr
    requires key in dst.entries && dst.entries[key].Sub?
    modifies dst.entries[key].table.repr
    ensures dst.entries == old(dst.entries) && dst.repr == old(dst.repr) && overlay.repr == old(overlay.repr)
    ensures Shows(dst, old(dst.View())[key := MergeValue(old(dst.View())[key], Object(old(overlay.View())))])
    ensures Tables(dst.entries[key]) <= old(Tables(dst.entries[key])) + overlay.repr
    ensures forall k :: k in dst.entries && k != key ==> Tables(dst.entries[k]) == old(Tables(dst.entries[k]))
    decreases overlay.repr, 4
  {
    Parts(dst);
    var below := dst.entries[key].table;
    ghost var others, before, merged := dst.entries - {key}, dst.View(), Merged(below.View(), overlay.View());
    assert forall k :: k in others ==> Tables(others[k]) !! below.repr && ItemView(others[k]) == before[k];
    MergeBeside(below, overlay, others);
    forall k | k in dst.entries
      ensures ItemValid(dst.entries[k]) && ItemView(dst.entries[k]) == before[key := Object(merged)][k]
      ensures k != key ==> Tables(dst.entries[k]) == old(Tables(dst.entries[k]))
    {
      if k != key { assert k in others && dst.entries[k] == others[k]; }
    }
    assert MergeValue(before[key], Object(old(overlay.View()))) == Object(merged);
  }

  method MergeBelow(dst: Table, key: string, overlay: Table)
    requires dst.Valid() && overlay.Valid() && dst.repr !! overlay.repr
    requires key in dst.entries && dst.entries[key].Sub?
    modifies dst, dst.entries[key].table.repr
    ensures dst.Valid() && dst.repr == old(dst.repr) + old(overlay.repr)
    ensures dst.entries == old(dst.entries)
    ensures dst.View() == old(dst.View())[key := MergeValue(old(dst.View())[key], Object(old(overlay.View())))]
    decreases overlay.repr, 5
  {
    ghost var view := dst.View()[key := MergeValue(dst.View()[key], Object(overlay.View()))];
    ghost var parts, added := PartsOf(dst), overlay.repr;
    Parts(dst);
    SpreadParts(dst);
    MergeTables(dst, key, overlay);
    Rejoin(dst, key, parts, added, view);
    TakeIn(dst, added, view);
  }

  /** One key of the overlay. */
  method MergeKey(dst: Table, src: Table, key: string)
    requires dst.Valid() && src.Valid() && key in src.entries
    requires dst.repr !! Tables(src.entries[key])
    modifies dst, if key in dst.entries then Tables(dst.entries[key]) else {}
    ensures dst.Valid() && dst.repr == old(dst.repr) + old(Tables(src.entries[key]))
    ensures forall k :: k in dst.entries && k != key ==> k in old(dst.entries) && dst.entries[k] == old(dst.entries)[k]
    ensures var into, v := old(dst.View()), old(src.View())[key];
            dst.View() == into[key := if key in into then MergeValue(into[key], v) else v]
    decreases src.repr, 0
  {
    var srcVal := src.entries[key];
    if key !in dst.entries {
      Put(dst, key, srcVal);
    } else if dst.entries[key].Sub? && srcVal.Sub? {
      MergeBelow(dst, key, srcVal.table);
    } else {
      Put(dst, key, srcVal);
    }
  }

  /** What still lies ahead is apart: the overlay's tables under `keys` are not yet
      the target's, and the target's under `keys` are still its `own`. */
  ghost predicate Apart(dst: Table, src: Table, keys: set<string>, own: set<Table>)
    requires dst.Valid() && src.Valid()
    reads dst, dst.repr, src, src.repr
  {
    && dst in own && dst.repr <= own + src.repr && own !! src.repr
    && (forall k :: k in keys && k in src.entries ==> dst.repr !! Tables(src.entries[k]))
    && (forall k :: k in keys && k in dst.entries ==> Tables(dst.entries[k]) <= own)
  }

  /** One key of the overlay, with what stays true for the keys after it. */
  method MergeNext(dst: Table, src: Table, keys: set<string>, key: string, ghost own: set<Table>)
    requires dst.Valid() && src.Valid() && key in keys && key in src.entries && Apart(dst, src, keys, own)
    modifies own
    ensures dst.Valid() && src.Valid() && src.View() == old(src.View())
    ensures src.entries == old(src.entries) && src.repr == old(src.repr)
    ensures Apart(dst, src, keys - {key}, own)
    ensures var into, v := old(dst.View()), old(src.View())[key];
            dst.View() == into[key := if key in into then MergeValue(into[key], v) else v]
    decreases src.repr, 1
  {
    ghost var overlay := Tables(src.entries[key]);
    MergeKey(dst, src, key);
    assert src.Valid() && src.entries == old(src.entries);
    forall k | k in keys - {key} && k in src.entries
      ensures dst.repr !! Tables(src.entries[k])
    {
      assert Tables(src.entries[k]) == old(Tables(src.entries[k]));
      assert Tables(src.entries[k]) !! overlay;
    }
  }

  /** `deepMerge`: ranges over the overlay's keys, in any order, updating the target
      in place. The target and the overlay start apart; afterwards the target may
      share tables with the overlay, which is unchanged. */
  method DeepMerge(dst: Table, src: Table)
    requires dst.Valid() && src.Valid() && dst.repr !! src.repr
    modifies dst.repr
    ensures dst.Valid() && dst.repr <= old(dst.repr) + old(src.repr)
    ensures dst.View() == Merged(old(dst.View()), old(src.View()))
    decreases src.repr, 2
  {
    ghost var into, from, own := dst.View(), src.View(), dst.repr;
    var keys := src.entries.Keys;
    while keys != {}
      invariant dst.Valid() && src.Valid() && src.View() == from && src.repr == old(src.repr)
      invariant Apart(dst, src, keys, own) && Halfway(into, from, keys, dst.View())
      decreases |keys|
    {
      var key :| key in keys;
      ghost var before := dst.View();
      MergeNext(dst, src, keys, key, own);
      OneKey(into, from, keys, before, key, dst.View()[key]);
      keys := keys - {key};
    }
    AllKeys(into, from, dst.View());
  }

  // ----- Key paths

  /** The value at a path of keys. */
  function At(fields: Fields, path: seq<string>): Option<Json>
    requires path != []
    decreases |path|
  {
    if path[0] !in fields then None
    else if |path| == 1 then Some(fields[path[0]])
    else if fields[path[0]].Object? then At(fields[path[0]].fields, path[1..])
    else None
  }

  /** A non-object at a strict prefix of the path. */
  predicate Cuts(fields: Fields, path: seq<string>)
    requires path != []
    decreases |path|
  {
    |path| > 1 && path[0] in fields
    && (fields[path[0]].Leaf? || Cuts(fields[path[0]].fields, path[1..]))
  }

  /** What the merge holds at a path, told from its two sides alone. */
  function Expected(dst: Fields, src: Fields, path: seq<string>): Option<Json>
    requires path != []
  {
    match At(src, path)
    case Some(v) => Some(if At(dst, path).Some? then MergeValue(At(dst, path).value, v) else v)
    case None => if Cuts(src, path) then None else At(dst, path)
  }

  /** Merge by path: the overlay's value where it has a non-object, nothing where it
      cuts the path off, the old value where it neither defines nor cuts the path,
      and a merged object where both have one. */
  lemma {:induction false} MergeByPath(dst: Fields, src: Fields, path: seq<string>)
    requires path != []
    ensures At(Merged(dst, src), path) == Expected(dst, src, path)
    decreases |path|
  {
    var k := path[0];
    MergedElsewhere(dst, src);
    if k in src {
      MergedAt(dst, src, k);
      if |path| > 1 && k in dst && dst[k].Object? && src[k].Object? {
        MergeByPath(dst[k].fields, src[k].fields, path[1..]);
      }
    }
  }

  /** Where the overlay has a non-object, the merge has that value. */
  lemma OverlayWins(dst: Fields, src: Fields, path: seq<string>)
    requires path != [] && At(src, path).Some? && At(src, path).value.Leaf?
    ensures At(Merged(dst, src), path) == At(src, path)
  {
    MergeByPath(dst, src, path);
  }

  lemma {:induction false} MergeSelf(v: Json)
    ensures MergeValue(v, v) == v
    decreases v
  {
    if v.Object? {
      MergedElsewhere(v.fields, v.fields);
      forall k | k in v.fields
        ensures Merged(v.fields, v.fields)[k] == v.fields[k]
      {
        MergedAt(v.fields, v.fields, k);
        MergeSelf(v.fields[k]);
      }
      assert Merged(v.fields, v.fields) == v.fields;
    }
  }

  lemma {:induction false} MergeValueTwice(dst: Json, src: Json)
    ensures MergeValue(MergeValue(dst, src), src) == MergeValue(dst, src)
    decreases src, 1
  {
    if dst.Object? && src.Object? {
      MergeTwice(dst.fields, src.fields);
    } else {
      MergeSelf(src);
    }
  }

  /** Merging the same overlay twice is merging it once. */
  lemma {:induction false} MergeTwice(dst: Fields, src: Fields)
    ensures Merged(Merged(dst, src), src) == Merged(dst, src)
    decreases Object(src), 0
  {
    var once := Merged(dst, src);
    MergedElsewhere(dst, src);
    MergedElsewhere(once, src);
    forall k | k in src
      ensures Merged(once, src)[k] == once[k]
    {
      MergedAt(dst, src, k);
      MergedAt(once, src, k);
      if k in dst {
        MergeValueTwice(dst[k], src[k]);
      } else {
        MergeSelf(src[k]);
      }
    }
  }

  // ----- Merging in place again

  /** The overlay adds nothing, as after it was merged once. */
  ghost predicate AddsNothing(dst: Table, src: Table)
    reads dst, dst.repr, src, src.repr
  {
    dst.Valid() && src.Valid() && Merged(dst.View(), src.View()) == dst.View()
  }

  lemma NothingUnder(dst: Table, src: Table, key: string)
    requires AddsNothing(dst, src) && key in src.entries
    ensures key in dst.entries
    ensures if dst.entries[key].Sub? && src.entries[key].Sub?
            then AddsNothing(dst.entries[key].table, src.entries[key].table)
                 && dst.entries[key].table.repr <= dst.repr && src.entries[key].table.repr < src.repr
            else dst.entries[key] == src.entries[key]
  {
    var d, s := dst.View(), src.View();
    Parts(dst);
    Parts(src);
    MergedAt(d, s, key);
    assert key in d && d[key] == ItemView(dst.entries[key]) && s[key] == ItemView(src.entries[key]);
  }

  /** One key of such an overlay: the assignment writes what is there already. */
  method MergeKeyAgain(dst: Table, src: Table, key: string)
    requires AddsNothing(dst, src) && key in src.entries
    modifies dst.repr
    ensures unchanged(old(dst.repr))
    decreases src.repr, 0
  {
    NothingUnder(dst, src, key);
    var srcVal := src.entries[key];
    if key !in dst.entries {
      assert false;
    } else if dst.entries[key].Sub? && srcVal.Sub? {
      DeepMergeAgain(dst.entries[key].table, srcVal.table);
    } else {
      assert dst.entries[key := srcVal] == dst.entries;
      dst.entries := dst.entries[key := srcVal];
    }
  }

  /** The loop of `deepMerge` with such an overlay. Target and overlay may share
      tables in any way. */
  method DeepMergeAgain(dst: Table, src: Table)
    requires AddsNothing(dst, src)
    modifies dst.repr
    ensures unchanged(old(dst.repr))
    decreases src.repr, 1
  {
    var keys := src.entries.Keys;
    while keys != {}
      invariant keys <= old(src.entries).Keys && unchanged(old(dst.repr))
      decreases |keys|
    {
      var key :| key in keys;
      assert AddsNothing(dst, src) && src.entries == old(src.entries) && dst.repr == old(dst.repr)
             && src.repr == old(src.repr);
      MergeKeyAgain(dst, src, key);
      keys := keys - {key};
    }
  }

  /** Two calls in a row: the second changes nothing, although the target by then
      shares tables with the overlay. */
  method MergeTwiceInPlace(dst: Table, src: Table)
    requires dst.Valid() && src.Valid() && dst.repr !! src.repr
    modifies dst.repr, src.repr
    ensures dst.Valid() && dst.View() == Merged(old(dst.View()), old(src.View()))
    ensures src.Valid() && src.View() == old(src.View())
  {
    ghost var into := dst.View();
    DeepMerge(dst, src);
    MergeTwice(into, src.View());
    DeepMergeAgain(dst, src);
  }
}
