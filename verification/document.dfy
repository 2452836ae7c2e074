/** The builder: the ordered section list plus page-level state, and the list
    operations `add`, `find`, `remove`, `sort`, `clear` and `component`. */
module Document {
  import opened Outcome
  import opened JsArray
  import opened Sections
  import opened Markup
  import opened Registry

  datatype Assets = Assets(css: Option<string>, js: string)

  datatype Builder = Builder(
    isEditing: bool,
    isRendered: bool,
    title: string,
    landing: string,
    intro: bool,
    sections: seq<Section>,
    columnsPrefix: map<string, string>,
    themes: seq<string>,
    components: Components,
    assets: Assets,
    settings: Option<Settings>,  // never assigned by the builder itself
    styler: bool,                // the styler plugin has attached its directive
    mixin: bool,                 // the mixin plugin has attached the builder mixin
    hasDownload: bool,           // a packaging plugin has installed `download`
    nextId: SectionId,           // stands in for Section's id generator
    destroyed: seq<Section>)     // every section `destroy()` was called on, in order

  /** Section identities are distinct and all below the next id to hand out. */
  predicate WellFormed(b: Builder) {
    UniqueIds(b.sections) && IdsBelow(b.sections, b.nextId)
  }

  // --------------------------------------------------------------------- add

  /** Where `add` puts the new section: the end without a position, otherwise
      where splice puts it. */
  function InsertionPoint(len: nat, position: Option<int>): (k: nat)
    ensures k <= len
    ensures position.None? ==> k == len
    ensures position.Some? && 0 <= position.value ==> k == Min(position.value, len)
  {
    match position
    case None => len
    case Some(p) => SpliceStart(len, p)
  }

  /** `add(options, position)`: a new section is spliced in at `position`, or
      pushed when no position is given; every other section keeps its place in
      the order and nothing else changes. */
  function Add(b: Builder, options: SectionOptions, position: Option<int>): (r: Builder)
    ensures r.sections == InsertAt(b.sections, InsertionPoint(|b.sections|, position), NewSection(b.nextId, options))
    ensures r.nextId == b.nextId + 1
    ensures r.(sections := b.sections, nextId := b.nextId) == b
  {
    var added := NewSection(b.nextId, options);
    var sections :=
      if position.Some? then
        SpliceInsertIsInsertAt(b.sections, position.value, added);
        Splice(b.sections, position.value, 0, [added])
      else
        b.sections + [added];
    b.(sections := sections, nextId := b.nextId + 1)
  }

  /** Without a position `add` appends; with a position `p >= 0` the new
      section lands at `min(p, |sections|)`; the list grows by one and taking
      the new section out again gives back the old list. */
  lemma AddPlacement(b: Builder, options: SectionOptions, position: Option<int>)
    ensures var s := Add(b, options, position).sections;
      && |s| == |b.sections| + 1
      && RemoveAt(s, InsertionPoint(|b.sections|, position)) == b.sections
    ensures position.None? ==> Add(b, options, position).sections == b.sections + [NewSection(b.nextId, options)]
    ensures position.Some? && 0 <= position.value ==>
      Add(b, options, position).sections[Min(position.value, |b.sections|)] == NewSection(b.nextId, options)
  {
    var k := InsertionPoint(|b.sections|, position);
    RemoveInsertAt(b.sections, k, NewSection(b.nextId, options));
  }

  lemma AddKeepsWellFormed(b: Builder, options: SectionOptions, position: Option<int>)
    requires WellFormed(b)
    ensures WellFormed(Add(b, options, position))
  {
    UniqueIdsInsertAt(b.sections, InsertionPoint(|b.sections|, position), NewSection(b.nextId, options), b.nextId);
  }

  // -------------------------------------------------------------------- find

  /** `findIndex(s => s.id === id)`: the first position holding `id`, or -1. */
  function FindIndex(sections: seq<Section>, id: SectionId): (r: int)
    ensures -1 <= r < |sections|
    ensures r == -1 <==> forall i :: 0 <= i < |sections| ==> sections[i].id != id
    ensures 0 <= r ==> sections[r].id == id && forall j :: 0 <= j < r ==> sections[j].id != id
  {
    if |sections| == 0 then -1
    else if sections[0].id == id then 0
    else
      var r := FindIndex(sections[1..], id);
      assert forall i :: 1 <= i < |sections| ==> sections[i] == sections[1..][i - 1];
      if r == -1 then -1 else r + 1
  }

  /** `find(id)`: the first section with that id, if any. */
  function Find(b: Builder, id: SectionId): (r: Option<Section>)
    ensures r.None? <==> forall i :: 0 <= i < |b.sections| ==> b.sections[i].id != id
    ensures r.Some? ==> exists i :: (0 <= i < |b.sections| && b.sections[i] == r.value
      && r.value.id == id
      && forall j :: 0 <= j < i ==> b.sections[j].id != id)
  {
    var i := FindIndex(b.sections, id);
    if i < 0 then None else Some(b.sections[i])
  }

  /** With unique ids, `find` returns the one section holding the id. */
  lemma FindUnique(b: Builder, k: nat)
    requires UniqueIds(b.sections) && k < |b.sections|
    ensures Find(b, b.sections[k].id) == Some(b.sections[k])
  {
  }

  // ------------------------------------------------------------------ remove

  /** `remove(section)`: the section with the argument's id is spliced out —
      but when no section has that id, findIndex's -1 makes splice drop the
      LAST section.  `destroy()` is called on the argument either way. */
  function Remove(b: Builder, section: Section): (r: Builder)
    ensures r.destroyed == b.destroyed + [section]
    ensures var i := FindIndex(b.sections, section.id);
      0 <= i ==> r.sections == RemoveAt(b.sections, i)
    ensures FindIndex(b.sections, section.id) == -1 ==>
      r.sections == b.sections[..if |b.sections| == 0 then 0 else |b.sections| - 1]
    ensures r.(sections := b.sections, destroyed := b.destroyed) == b
  {
    RemoveSplice(b.sections, section.id);
    b.(sections := Splice(b.sections, FindIndex(b.sections, section.id), 1, []),
       destroyed := b.destroyed + [section])
  }

  /** What `splice(findIndex(...), 1)` leaves of a list. */
  lemma RemoveSplice(s: seq<Section>, id: SectionId)
    ensures var i := FindIndex(s, id);
      && (0 <= i ==> Splice(s, i, 1, []) == RemoveAt(s, i))
      && (i == -1 ==> Splice(s, i, 1, []) == s[..if |s| == 0 then 0 else |s| - 1])
  {
    var i := FindIndex(s, id);
    if 0 <= i {
      SpliceRemoveIsRemoveAt(s, i);
    } else {
      SpliceRemoveMinusOne(s);
    }
  }

  /** With unique ids, after `remove(section)` no section has its id: it was
      either taken out or never there. */
  lemma RemoveThenFindIsNone(b: Builder, section: Section)
    requires UniqueIds(b.sections)
    ensures Find(Remove(b, section), section.id).None?
  {
    var s := b.sections;
    var r := Remove(b, section).sections;
    var i := FindIndex(s, section.id);
    if 0 <= i {
      forall j | 0 <= j < |r|
        ensures r[j].id != section.id
      {
        if j < i {
          assert r[j] == s[j];
        } else {
          assert r[j] == s[j + 1];
        }
      }
    } else {
      assert forall j :: 0 <= j < |r| ==> r[j] == s[j];
    }
  }

  /** `remove` drops exactly one section of a non-empty list (the matching one,
      else the last) and keeps the order of the rest. */
  lemma RemoveDropsOne(b: Builder, section: Section)
    requires 0 < |b.sections|
    ensures var i := FindIndex(b.sections, section.id);
      Remove(b, section).sections == RemoveAt(b.sections, if 0 <= i then i else |b.sections| - 1)
  {
    RemoveLast(b.sections);
  }

  /** As written, removing a section that is not in the list still shortens a
      non-empty list: the last section goes, and it is not destroyed. */
  lemma RemoveAbsentDropsLast(b: Builder, section: Section)
    requires 0 < |b.sections|
    requires forall i :: 0 <= i < |b.sections| ==> b.sections[i].id != section.id
    ensures Remove(b, section).sections == b.sections[..|b.sections| - 1]
    ensures |Remove(b, section).sections| < |b.sections|
    ensures b.sections[|b.sections| - 1] !in Remove(b, section).destroyed[|b.destroyed|..]
  {
  }

  /** `remove` as its documentation describes it: only a section with the
      argument's id is taken out; when there is none the list is untouched.
      `destroy()` is still called on the argument. */
  function RemoveById(b: Builder, section: Section): (r: Builder)
    ensures r.destroyed == b.destroyed + [section]
    ensures var i := FindIndex(b.sections, section.id);
      && (0 <= i ==> r.sections == RemoveAt(b.sections, i))
      && (i == -1 ==> r.sections == b.sections)
    ensures r.(sections := b.sections, destroyed := b.destroyed) == b
  {
    var i := FindIndex(b.sections, section.id);
    if i < 0 then b.(destroyed := b.destroyed + [section])
    else Remove(b, section)
  }

  /** With unique ids the corrected removal is idempotent on the list and
      leaves no section with the id. */
  lemma RemoveByIdIdempotent(b: Builder, section: Section)
    requires UniqueIds(b.sections)
    ensures Find(RemoveById(b, section), section.id).None?
    ensures RemoveById(RemoveById(b, section), section).sections == RemoveById(b, section).sections
  {
    RemoveThenFindIsNone(b, section);
  }

  lemma RemoveKeepsWellFormed(b: Builder, section: Section)
    requires WellFormed(b)
    ensures WellFormed(Remove(b, section))
  {
    var i := FindIndex(b.sections, section.id);
    if 0 <= i {
      UniqueIdsRemoveAt(b.sections, i, b.nextId);
    } else if 0 < |b.sections| {
      RemoveLast(b.sections);
      UniqueIdsRemoveAt(b.sections, |b.sections| - 1, b.nextId);
    }
  }

  // -------------------------------------------------------------------- sort

  /** `sort(oldIndex, newIndex)`: the section at `oldIndex` is taken out and
      put back where splice reads `newIndex` on the shortened list; nothing
      else changes. */
  function Sort(b: Builder, oldIndex: int, newIndex: int): (r: Builder)
    requires 0 <= oldIndex < |b.sections|
    ensures var s := b.sections;
      r.sections == InsertAt(RemoveAt(s, oldIndex), SpliceStart(|s| - 1, newIndex), s[oldIndex])
    ensures r.(sections := b.sections) == b
  {
    var section := b.sections[oldIndex];
    SpliceRemoveIsRemoveAt(b.sections, oldIndex);
    var rest := Splice(b.sections, oldIndex, 1, []);
    SpliceInsertIsInsertAt(rest, newIndex, section);
    b.(sections := Splice(rest, newIndex, 0, [section]))
  }

  /** `sort(i, j)` with both indices inside the list is a move: the section at
      `i` ends at `j`, the ones between shift by one towards `i`, the rest stay,
      and the list keeps its length and its sections. */
  lemma SortMoves(b: Builder, i: nat, j: nat)
    requires i < |b.sections| && j < |b.sections|
    ensures var s, r := b.sections, Sort(b, i, j).sections;
      && |r| == |s|
      && multiset(r) == multiset(s)
      && r[j] == s[i]
      && (forall k :: 0 <= k < i && k < j ==> r[k] == s[k])
      && (forall k :: i < k < |s| && j < k ==> r[k] == s[k])
      && (forall k :: i <= k < j ==> r[k] == s[k + 1])
      && (forall k :: j < k <= i ==> r[k] == s[k - 1])
  {
    MoveShape(b.sections, i, j);
  }

  lemma SortKeepsWellFormed(b: Builder, oldIndex: int, newIndex: int)
    requires 0 <= oldIndex < |b.sections|
    requires WellFormed(b)
    ensures WellFormed(Sort(b, oldIndex, newIndex))
  {
    var s := b.sections;
    var rest := RemoveAt(s, oldIndex);
    var r := Sort(b, oldIndex, newIndex).sections;
    var k := SpliceStart(|s| - 1, newIndex);
    UniqueIdsRemoveAt(s, oldIndex, b.nextId);
    forall m, n | 0 <= m < n < |r|
      ensures r[m].id != r[n].id
    {
      MoveIdsDistinct(s, oldIndex, k, m, n);
    }
  }

  lemma MoveIdsDistinct(s: seq<Section>, i: nat, k: nat, m: nat, n: nat)
    requires i < |s| && k < |s| && UniqueIds(s)
    requires m < n < |s|
    ensures var r := InsertAt(RemoveAt(s, i), k, s[i]); r[m].id != r[n].id
  {
    var rest := RemoveAt(s, i);
    var r := InsertAt(rest, k, s[i]);
    // the original position of each element of r
    var pm := if m == k then i else var q := if m < k then m else m - 1; if q < i then q else q + 1;
    var pn := if n == k then i else var q := if n < k then n else n - 1; if q < i then q else q + 1;
    assert r[m] == s[pm] && r[n] == s[pn];
  }

  // ------------------------------------------------------------------- clear

  datatype Cleared = Cleared(builder: Builder, previous: seq<Section>)

  /** `clear()`: every section is destroyed, in order, the list is emptied, and
      the old list is handed back to the caller. */
  function Clear(b: Builder): (r: Cleared)
    ensures r.previous == b.sections
    ensures r.builder.sections == []
    ensures r.builder.destroyed == b.destroyed + b.sections
    ensures r.builder.(sections := b.sections, destroyed := b.destroyed) == b
  {
    Cleared(b.(sections := [], destroyed := b.destroyed + b.sections), b.sections)
  }

  /** Clearing twice: the second call hands back nothing and destroys nothing more. */
  lemma ClearTwice(b: Builder)
    ensures Clear(Clear(b).builder).previous == []
    ensures Clear(Clear(b).builder).builder == Clear(b).builder
  {
  }

  // --------------------------------------------------------------- component

  /** `component(name, definition)`: the entry stored under the key (the name,
      or the definition's own name when only a plain object is passed) is the
      definition augmented with the builder's styler and mixin and the shared
      sub-components current now.  A lone constructor leaves the definition
      undefined and throws; a plain definition needs the installed Vue runtime
      to extend it first, and throws without one. */
  function Component(b: Builder, vueInstalled: bool, mixier: MixObject, args: ComponentArgs): (r: Result<Builder, RegistryError>)
    ensures r.Err? <==>
      (args.Inline? && args.definition.isConstructor) || (!args.definition.isConstructor && !vueInstalled)
    ensures args.Inline? && args.definition.isConstructor ==> r == Err(MissingDefinition)
    ensures r.Err? && !(args.Inline? && args.definition.isConstructor) ==> r.error == VueNotInstalled
    ensures r.Ok? ==>
      && KeyOf(args) in r.value.components
      && r.value.components[KeyOf(args)] ==
           Registered(args.definition.options, b.styler, b.mixin, SharedComponents(mixier))
      && (forall k :: k != KeyOf(args) ==>
            (k in r.value.components <==> k in b.components)
            && (k in b.components ==> r.value.components[k] == b.components[k]))
      && r.value.(components := b.components) == b
  {
    var definition := args.definition;
    if args.Inline? && definition.isConstructor then Err(MissingDefinition)
    else if !definition.isConstructor && !vueInstalled then Err(VueNotInstalled)
    else
      var entry := Registered(definition.options, b.styler, b.mixin, SharedComponents(mixier));
      Ok(b.(components := b.components[KeyOf(args) := entry]))
  }
}
