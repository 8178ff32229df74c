/**
 The dataset's class table and the name-to-id mapping the converter builds from it.

 The table is the YAML `names` dictionary, id to name, kept as a sequence of
 `(id, name)` pairs in insertion order. The mapping is a dictionary comprehension
 that walks those pairs in order, so when a name occurs twice the later pair's id
 is the one that survives.
 */
module ClassMap {

  /** `(id, name)` pairs in the order the table lists them. */
  type NamesTable = seq<(int, string)>

  /** The eleven classes of this dataset, ids 0 to 10. */
  const Names: NamesTable := [
    (0, "jg"), (1, "rxd"), (2, "dxgx"), (3, "zsp"), (4, "xfs"), (5, "dzy"),
    (6, "lhd"), (7, "jdp"), (8, "jsp"), (9, "ld"), (10, "txx")
  ]

  /** No later pair of the table reuses the name of pair `i`. */
  predicate LastWithName(table: NamesTable, i: nat)
    requires i < |table|
  {
    forall j :: i < j < |table| ==> table[j].1 != table[i].1
  }

  /** Every name in the table occurs once. */
  predicate DistinctNames(table: NamesTable)
  {
    forall i, j :: 0 <= i < j < |table| ==> table[i].1 != table[j].1
  }

  /** The name-to-id mapping. Its keys are exactly the table's names, and each
      name is sent to the id of the last pair that carries it. */
  function ClassMapping(table: NamesTable): (m: map<string, int>)
    ensures m.Keys == set i | 0 <= i < |table| :: table[i].1
    ensures forall i :: 0 <= i < |table| && LastWithName(table, i) ==> m[table[i].1] == table[i].0
  {
    if |table| == 0 then map[]
    else
      var prefix, last := table[..|table| - 1], table[|table| - 1];
      assert forall i :: 0 <= i < |prefix| ==> prefix[i] == table[i];
      assert (set i | 0 <= i < |table| :: table[i].1)
          == (set i | 0 <= i < |prefix| :: prefix[i].1) + {last.1};
      ClassMapping(prefix)[last.1 := last.0]
  }

  /** When the names are distinct the mapping inverts the table: every id is
      recovered from its name, and there is one entry per pair. */
  lemma {:induction false} ClassMappingInvertsDistinct(table: NamesTable)
    requires DistinctNames(table)
    ensures forall i :: 0 <= i < |table| ==> ClassMapping(table)[table[i].1] == table[i].0
    ensures |ClassMapping(table)| == |table|
  {
    if |table| > 0 {
      var prefix := table[..|table| - 1];
      var last := table[|table| - 1];
      assert DistinctNames(prefix);
      ClassMappingInvertsDistinct(prefix);
      assert last.1 !in ClassMapping(prefix).Keys;
      assert ClassMapping(table).Keys == ClassMapping(prefix).Keys + {last.1};
    }
  }

  /** The position of the last pair naming `name`. */
  function LastIndexOf(table: NamesTable, name: string): (i: nat)
    requires exists k :: 0 <= k < |table| && table[k].1 == name
    ensures i < |table| && table[i].1 == name && LastWithName(table, i)
  {
    if table[|table| - 1].1 == name then |table| - 1
    else LastIndexOf(table[..|table| - 1], name)
  }

  /** Every name of the table is in the mapping, paired with an id it carries in
      the table. */
  lemma ClassMappingIdsFromTable(table: NamesTable, name: string)
    requires exists k :: 0 <= k < |table| && table[k].1 == name
    ensures name in ClassMapping(table)
    ensures exists i :: 0 <= i < |table| && table[i] == (ClassMapping(table)[name], name)
  {
    var i := LastIndexOf(table, name);
    assert table[i] == (ClassMapping(table)[name], name);
  }

  /** The eleven names of this dataset's table are pairwise different. */
  lemma NamesDistinct()
    ensures DistinctNames(Names)
  {
    forall i, j | 0 <= i < j < |Names|
      ensures Names[i].1 != Names[j].1
    {
      var a, b := Names[i].1, Names[j].1;
      assert |a| != |b| || a[0] != b[0] || a[1] != b[1];
    }
  }

  /** Ids in this dataset's table are contiguous from 0: pair `i` carries id `i`. */
  lemma NamesIdsAreIndices()
    ensures forall i :: 0 <= i < |Names| ==> Names[i].0 == i
  {
  }

  /** For this dataset's table: the mapping sends the name of id `i` back to `i`
      for every id 0..10, and it has eleven entries. */
  lemma NamesMappingIsInverse()
    ensures forall i :: 0 <= i < |Names| ==> ClassMapping(Names)[Names[i].1] == i
    ensures |ClassMapping(Names)| == 11
  {
    NamesDistinct();
    NamesIdsAreIndices();
    ClassMappingInvertsDistinct(Names);
  }

  /** Every id the dataset's mapping hands out is one of 0..10. */
  lemma NamesMappingIdsInRange()
    ensures forall id :: id in ClassMapping(Names).Values ==> 0 <= id < 11
  {
    NamesIdsAreIndices();
    forall name | name in ClassMapping(Names)
      ensures 0 <= ClassMapping(Names)[name] < 11
    {
      ClassMappingIdsFromTable(Names, name);
    }
  }
}
