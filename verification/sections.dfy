/** The section record, built from its options.  Section's own module (its id
    generator and teardown) is not part of this model: ids are handed in by the
    caller, and teardown is recorded by the builder's destroy log. */
module Sections {
  import opened Outcome
  import opened Values
  import opened JsArray

  type SectionId = nat

  /** A section type's editable-field description (opaque here). */
  datatype Schema = Schema(fields: Data)

  /** What a section is constructed from; absent fields stay absent. */
  datatype SectionOptions = SectionOptions(
    name: string,
    group: Option<string>,
    schema: Option<Schema>,
    data: Option<Data>,
    isHeader: Option<bool>)

  datatype Section = Section(
    id: SectionId,
    name: string,
    group: Option<string>,
    schema: Option<Schema>,
    data: Option<Data>,
    isHeader: Option<bool>)

  /** `new Section(options)` with the identity `id`. */
  function NewSection(id: SectionId, o: SectionOptions): Section {
    Section(id, o.name, o.group, o.schema, o.data, o.isHeader)
  }

  /** No two sections of the list share an id. */
  predicate UniqueIds(s: seq<Section>) {
    forall i, j :: 0 <= i < j < |s| ==> s[i].id != s[j].id
  }

  /** Every id in the list is below `bound`. */
  predicate IdsBelow(s: seq<Section>, bound: nat) {
    forall i :: 0 <= i < |s| ==> s[i].id < bound
  }

  /** The smallest id above every id of `s` (0 for an empty list). */
  function NextFreeId(s: seq<Section>): (n: nat)
    ensures IdsBelow(s, n)
  {
    if |s| == 0 then 0
    else
      var rest := NextFreeId(s[1..]);
      assert forall i :: 1 <= i < |s| ==> s[i] == s[1..][i - 1];
      if s[0].id < rest then rest else s[0].id + 1
  }

  lemma UniqueIdsRemoveAt(s: seq<Section>, k: nat, bound: nat)
    requires k < |s|
    requires UniqueIds(s) && IdsBelow(s, bound)
    ensures UniqueIds(RemoveAt(s, k)) && IdsBelow(RemoveAt(s, k), bound)
  {
    var r := RemoveAt(s, k);
    forall i, j | 0 <= i < j < |r|
      ensures r[i].id != r[j].id
    {
      var i', j' := if i < k then i else i + 1, if j < k then j else j + 1;
      assert r[i] == s[i'] && r[j] == s[j'];
    }
  }

  lemma UniqueIdsInsertAt(s: seq<Section>, k: nat, x: Section, bound: nat)
    requires k <= |s|
    requires UniqueIds(s) && IdsBelow(s, bound)
    requires x.id >= bound
    ensures UniqueIds(InsertAt(s, k, x)) && IdsBelow(InsertAt(s, k, x), x.id + 1)
  {
    var r := InsertAt(s, k, x);
    forall i, j | 0 <= i < j < |r|
      ensures r[i].id != r[j].id
    {
      if i != k && j != k {
        var i', j' := if i < k then i else i - 1, if j < k then j else j - 1;
        assert r[i] == s[i'] && r[j] == s[j'];
      } else if i == k {
        assert r[j] == s[j - 1];
      } else {
        assert r[i] == s[i];
      }
    }
    forall i | 0 <= i < |r|
      ensures r[i].id < x.id + 1
    {
      if i < k {
        assert r[i] == s[i];
      } else if i > k {
        assert r[i] == s[i - 1];
      }
    }
  }
}
