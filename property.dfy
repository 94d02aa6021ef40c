/**
 * The per-property table of the script: an insertion-ordered dictionary
 * from material name to its [average, standard deviation] pair, the rows
 * it flattens into, and the CSV table built from those rows.
 *
 * Averages and standard deviations are `real`; the number format of the
 * CSV cells is a parameter, and the file write is not part of this model.
 */
module PropertyTable {
  import opened Wrappers

  /** A material under evaluation; `str()` of it is its name. */
  datatype Material = Material(material: string)

  /** The pair stored for one material. */
  datatype PropertyValues = PropertyValues(avg: real, stdDev: real) {
    /** The pair as the two-element list the script stores. */
    function Values(): (r: seq<real>)
      ensures |r| == 2 && PropertyValues(r[0], r[1]) == this
    {
      [avg, stdDev]
    }
  }

  /** The header row of every CSV table. */
  const Headers: seq<string> := ["Material", "Average", "Standard Deviation"]

  ghost predicate NoDuplicates(s: seq<string>) {
    forall i, j :: 0 <= i < j < |s| ==> s[i] != s[j]
  }

  /**
   * The key order after `update({key: ...})` on a Python dictionary: a new
   * key goes to the end, an existing key keeps its place.
   */
  function InsertKey(keys: seq<string>, key: string): seq<string> {
    if key in keys then keys else keys + [key]
  }

  /** The names of a run of (material, average, standard deviation) entries. */
  function Names(entries: seq<(Material, real, real)>): seq<string> {
    seq(|entries|, i requires 0 <= i < |entries| => entries[i].0.material)
  }

  /** The key order after adding `entries` one after the other to a table with `keys`. */
  function KeyOrder(keys: seq<string>, entries: seq<(Material, real, real)>): seq<string> {
    if entries == [] then keys
    else InsertKey(KeyOrder(keys, entries[..|entries| - 1]), entries[|entries| - 1].0.material)
  }

  /** The dictionary after adding `entries` one after the other to `materials`. */
  function Stored(materials: map<string, PropertyValues>, entries: seq<(Material, real, real)>): map<string, PropertyValues> {
    if entries == [] then materials
    else
      var last := entries[|entries| - 1];
      Stored(materials, entries[..|entries| - 1])[last.0.material := PropertyValues(last.1, last.2)]
  }

  /** Adding a key keeps the key list free of repeats and adds exactly that key. */
  lemma InsertKeyDistinct(keys: seq<string>, key: string)
    requires NoDuplicates(keys)
    ensures NoDuplicates(InsertKey(keys, key))
    ensures forall k :: k in InsertKey(keys, key) <==> k in keys || k == key
  {
  }

  /** A material is listed after a run of additions exactly when it was there before or was added. */
  lemma {:induction false} KeyOrderMembers(keys: seq<string>, entries: seq<(Material, real, real)>, k: string)
    ensures k in KeyOrder(keys, entries) <==> k in keys || k in Names(entries)
  {
    if entries != [] {
      var front := entries[..|entries| - 1];
      KeyOrderMembers(keys, front, k);
      assert Names(entries) == Names(front) + [entries[|entries| - 1].0.material];
    }
  }

  /** However often a name is entered, the key list never lists a material twice. */
  lemma {:induction false} KeyOrderNoDuplicates(keys: seq<string>, entries: seq<(Material, real, real)>)
    requires NoDuplicates(keys)
    ensures NoDuplicates(KeyOrder(keys, entries))
  {
    if entries != [] {
      KeyOrderNoDuplicates(keys, entries[..|entries| - 1]);
      InsertKeyDistinct(KeyOrder(keys, entries[..|entries| - 1]), entries[|entries| - 1].0.material);
    }
  }

  /** The old keys keep their order at the front, whatever is added. */
  lemma {:induction false} KeyOrderExtends(keys: seq<string>, entries: seq<(Material, real, real)>)
    ensures |keys| <= |KeyOrder(keys, entries)| && KeyOrder(keys, entries)[..|keys|] == keys
  {
    if entries != [] {
      KeyOrderExtends(keys, entries[..|entries| - 1]);
    }
  }

  /**
   * Materials with distinct names, none of them in the table yet, are listed
   * after the old keys in the order they were added.
   */
  lemma {:induction false} KeyOrderFresh(keys: seq<string>, entries: seq<(Material, real, real)>)
    requires NoDuplicates(Names(entries))
    requires forall i :: 0 <= i < |entries| ==> entries[i].0.material !in keys
    ensures KeyOrder(keys, entries) == keys + Names(entries)
  {
    if entries != [] {
      var front := entries[..|entries| - 1];
      var name := entries[|entries| - 1].0.material;
      assert Names(front) == Names(entries)[..|entries| - 1];
      KeyOrderFresh(keys, front);
      assert name !in keys + Names(front) by {
        forall i | 0 <= i < |front| ensures Names(front)[i] != name {
          assert Names(entries)[i] == Names(front)[i];
          assert Names(entries)[|entries| - 1] == name;
        }
      }
    }
  }

  /** An entry that names no material leaves `k` as it was. */
  lemma {:induction false} StoredUntouched(materials: map<string, PropertyValues>, entries: seq<(Material, real, real)>, k: string)
    requires k !in Names(entries)
    ensures k in Stored(materials, entries) <==> k in materials
    ensures k in materials ==> Stored(materials, entries)[k] == materials[k]
  {
    if entries != [] {
      var front := entries[..|entries| - 1];
      assert Names(entries) == Names(front) + [entries[|entries| - 1].0.material];
      StoredUntouched(materials, front, k);
    }
  }

  /**
   * The last entry naming a material decides its pair: an earlier value
   * under the same name is overwritten.
   */
  lemma {:induction false} StoredLastWins(materials: map<string, PropertyValues>, entries: seq<(Material, real, real)>, i: int)
    requires 0 <= i < |entries|
    requires forall j :: i < j < |entries| ==> entries[j].0.material != entries[i].0.material
    ensures entries[i].0.material in Stored(materials, entries)
    ensures Stored(materials, entries)[entries[i].0.material] == PropertyValues(entries[i].1, entries[i].2)
  {
    if i < |entries| - 1 {
      StoredLastWins(materials, entries[..|entries| - 1], i);
    }
  }

  /**
   * A session that adds materials with distinct names to a fresh property
   * lists them in the order they were added, each with the pair given for it.
   */
  lemma FreshSessionRoundTrip(entries: seq<(Material, real, real)>)
    requires NoDuplicates(Names(entries))
    ensures KeyOrder([], entries) == Names(entries)
    ensures forall i :: 0 <= i < |entries| ==>
      && entries[i].0.material in Stored(map[], entries)
      && Stored(map[], entries)[entries[i].0.material] == PropertyValues(entries[i].1, entries[i].2)
  {
    KeyOrderFresh([], entries);
    assert [] + Names(entries) == Names(entries);
    forall i | 0 <= i < |entries|
      ensures entries[i].0.material in Stored(map[], entries)
      ensures Stored(map[], entries)[entries[i].0.material] == PropertyValues(entries[i].1, entries[i].2)
    {
      DistinctIsLast(entries, i);
      StoredLastWins(map[], entries, i);
    }
  }

  /** With distinct names, no later entry repeats the name of entry `i`. */
  lemma DistinctIsLast(entries: seq<(Material, real, real)>, i: int)
    requires NoDuplicates(Names(entries))
    requires 0 <= i < |entries|
    ensures forall j :: i < j < |entries| ==> entries[j].0.material != entries[i].0.material
  {
    var names := Names(entries);
    forall j | i < j < |entries| ensures entries[j].0.material != entries[i].0.material {
      assert names[i] != names[j];
    }
  }

  /** A named rating scale and the pair entered for each material on it. */
  class Property {
    const name: string
    const headers: seq<string>
    /** The dictionary's keys in insertion order. */
    var keys: seq<string>
    /** The dictionary's contents. */
    var materials: map<string, PropertyValues>

    /** Each material is listed once, and exactly the listed materials have a pair. */
    ghost predicate Valid()
      reads this
    {
      && NoDuplicates(keys)
      && (forall k :: k in materials <==> k in keys)
    }

    constructor (name: string)
      ensures Valid()
      ensures this.name == name && headers == Headers
      ensures keys == [] && materials == map[]
    {
      this.name := name;
      headers := Headers;
      keys := [];
      materials := map[];
    }

    /**
     * `add_a_material`: stores [avg, stdDev] under the material's name,
     * overwriting an existing pair in its place or adding the name at the end.
     */
    method AddAMaterial(material: Material, avg: real, stdDev: real)
      requires Valid()
      modifies this
      ensures Valid()
      ensures materials == old(materials)[material.material := PropertyValues(avg, stdDev)]
      ensures material.material in old(keys) ==> keys == old(keys)
      ensures material.material !in old(keys) ==> keys == old(keys) + [material.material]
    {
      var propertyValues := PropertyValues(avg, stdDev);
      InsertKeyDistinct(keys, material.material);
      materials := materials[material.material := propertyValues];
      keys := InsertKey(keys, material.material);
    }

    /**
     * The session's loop over the materials of one property: each material
     * is added with the pair entered (or generated) for it.
     */
    method AddMaterials(entries: seq<(Material, real, real)>)
      requires Valid()
      modifies this
      ensures Valid()
      ensures keys == KeyOrder(old(keys), entries)
      ensures materials == Stored(old(materials), entries)
    {
      for i := 0 to |entries|
        invariant Valid()
        invariant keys == KeyOrder(old(keys), entries[..i])
        invariant materials == Stored(old(materials), entries[..i])
      {
        assert entries[..i + 1][..i] == entries[..i];
        var (mat, avg, stdDev) := entries[i];
        AddAMaterial(mat, avg, stdDev);
      }
      assert entries[..|entries|] == entries;
    }

    /**
     * `gen_array`: one [avg, stdDev] row per material and the parallel list
     * of names, both in insertion order.
     */
    method GenArray() returns (arrayList: seq<seq<real>>, materialList: seq<string>)
      requires Valid()
      ensures materialList == keys
      ensures |arrayList| == |keys|
      ensures forall i :: 0 <= i < |keys| ==>
        arrayList[i] == [materials[keys[i]].avg, materials[keys[i]].stdDev]
    {
      arrayList, materialList := [], [];
      for i := 0 to |keys|
        invariant materialList == keys[..i]
        invariant |arrayList| == i
        invariant forall j :: 0 <= j < i ==>
          arrayList[j] == [materials[keys[j]].avg, materials[keys[j]].stdDev]
      {
        var mat := keys[i];
        var arrayRow := [];
        materialList := materialList + [mat];
        var values := materials[mat].Values();
        for v := 0 to |values|
          invariant arrayRow == values[..v]
        {
          arrayRow := arrayRow + [values[v]];
        }
        assert arrayRow == values;
        arrayList := arrayList + [arrayRow];
      }
    }

    /**
     * The table `gen_csv` writes: the header row, then one row per material
     * with its name and its two values rendered by `toStr`. With no material
     * the script's array has no second axis to insert the names into and it
     * fails; that is `None` here.
     */
    method GenCsv(toStr: real -> string) returns (csv: Option<seq<seq<string>>>)
      requires Valid()
      ensures csv.None? <==> keys == []
      ensures csv.Some? ==> |csv.value| == |keys| + 1
      ensures csv.Some? ==> csv.value[0] == headers
      ensures csv.Some? ==> forall i :: 0 <= i < |keys| ==>
        csv.value[i + 1] == [keys[i], toStr(materials[keys[i]].avg), toStr(materials[keys[i]].stdDev)]
    {
      var data, matNames := GenArray();
      if data == [] {
        return None;
      }
      var noHeaders := seq(|data|, i requires 0 <= i < |data| =>
        [matNames[i]] + seq(|data[i]|, j requires 0 <= j < |data[i]| => toStr(data[i][j])));
      csv := Some([headers] + noHeaders);
    }
  }

  /** The example of two materials on one scale, from entry to table. */
  method WarmthExample(toStr: real -> string)
  {
    var warmth := new Property("Warmth");
    var entries := [(Material("Wood"), 7.0, 1.0), (Material("Steel"), 2.0, 0.5)];
    warmth.AddMaterials(entries);
    assert Names(entries) == ["Wood", "Steel"];
    FreshSessionRoundTrip(entries);
    assert warmth.keys == ["Wood", "Steel"];
    assert warmth.materials["Wood"] == PropertyValues(7.0, 1.0);
    assert warmth.materials["Steel"] == PropertyValues(2.0, 0.5);
    var csv := warmth.GenCsv(toStr);
    assert csv.Some? && |csv.value| == 3 && csv.value[0] == Headers;
    assert csv.value[1] == ["Wood", toStr(7.0), toStr(1.0)];
    assert csv.value[2] == ["Steel", toStr(2.0), toStr(0.5)];
  }
}
