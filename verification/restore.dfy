/** `set(data)`: rebuilding the section list from a snapshot through the
    component registry. */
module Restore {
  import opened Outcome
  import opened Values
  import opened Sections
  import opened Registry
  import opened Document

  /** One entry of a snapshot's `sections`: a bare type name, or a saved
      `{name, data}` record. */
  datatype Entry = TypeName(name: string) | Saved(name: string, data: Option<Data>)

  /** The argument of `set`.  A missing `title` is `None`; `sections` is `None`
      when it is missing or not an array. */
  datatype SetData = SetData(title: Option<string>, sections: Option<seq<Entry>>)

  /** Both registry lookups an entry needs succeed: its own name, and — when
      the component has no `schema` — the name its options carry, whose
      `$schema` is the fallback. */
  predicate Resolvable(components: Components, e: Entry) {
    && e.name in components
    && (components[e.name].options.schema.Some? || components[e.name].options.name in components)
  }

  /** The options one entry's section is constructed from. */
  function ResolveEntry(components: Components, e: Entry): (r: Result<SectionOptions, RegistryError>)
    ensures r.Ok? <==> Resolvable(components, e)
    ensures r.Err? && e.name !in components ==> r.error == Unregistered(e.name)
    ensures r.Err? && e.name in components ==> r.error == Unregistered(components[e.name].options.name)
  {
    if e.name !in components then Err(Unregistered(e.name))
    else
      var c := components[e.name].options;
      if c.schema.None? && c.name !in components then Err(Unregistered(c.name))
      else
        var schema := if c.schema.Some? then c.schema else components[c.name].options.defaultSchema;
        match e
        case TypeName(_) => Ok(SectionOptions(c.name, c.group, schema, None, None))
        case Saved(_, data) => Ok(SectionOptions(c.name, c.group, schema, data, c.isHeader))
  }

  /** `entries.map(...)`: every entry resolved, or the error of the first entry
      that is not. */
  function ResolveAll(components: Components, es: seq<Entry>): (r: Result<seq<SectionOptions>, RegistryError>)
    ensures r.Ok? <==> forall i :: 0 <= i < |es| ==> Resolvable(components, es[i])
    ensures r.Ok? ==> (|r.value| == |es|
      && forall i :: 0 <= i < |es| ==> r.value[i] == ResolveEntry(components, es[i]).value)
    ensures r.Err? ==> exists i :: (0 <= i < |es| && !Resolvable(components, es[i])
      && (forall j :: 0 <= j < i ==> Resolvable(components, es[j]))
      && r.error == ResolveEntry(components, es[i]).error)
  {
    if |es| == 0 then Ok([])
    else
      var head := ResolveEntry(components, es[0]);
      if head.Err? then
        assert !Resolvable(components, es[0]);
        Err(head.error)
      else
        var tail := ResolveAll(components, es[1..]);
        assert forall i :: 1 <= i < |es| ==> es[i] == es[1..][i - 1];
        if tail.Err? then
          var k :| 0 <= k < |es[1..]| && !Resolvable(components, es[1..][k])
            && (forall j :: 0 <= j < k ==> Resolvable(components, es[1..][j]))
            && tail.error == ResolveEntry(components, es[1..][k]).error;
          assert !Resolvable(components, es[k + 1]);
          Err(tail.error)
        else
          Ok([head.value] + tail.value)
  }

  /** Sections built from `opts` with consecutive fresh ids from `first`. */
  function NewSections(first: SectionId, opts: seq<SectionOptions>): (r: seq<Section>)
    ensures |r| == |opts|
    ensures forall i :: 0 <= i < |opts| ==> r[i] == NewSection(first + i, opts[i])
    decreases |opts|
  {
    if |opts| == 0 then [] else [NewSection(first, opts[0])] + NewSections(first + 1, opts[1..])
  }

  /** `s` is the list `set` builds from `es`: one section per entry, in order,
      with consecutive ids from `first`, named, grouped and flagged as the
      registered component says, with its schema or else the `$schema`
      fallback, and carrying the entry's data when the entry is a saved
      record. */
  predicate Rebuilt(components: Components, first: SectionId, es: seq<Entry>, s: seq<Section>) {
    && |s| == |es|
    && forall i :: 0 <= i < |es| ==> RebuiltAt(components, first, es, s, i)
  }

  predicate RebuiltAt(components: Components, first: SectionId, es: seq<Entry>, s: seq<Section>, i: nat)
    requires i < |es| && i < |s|
  {
    && Resolvable(components, es[i])
    && var c := components[es[i].name].options;
    && s[i].id == first + i
    && s[i].name == c.name
    && s[i].group == c.group
    && s[i].schema == (if c.schema.Some? then c.schema else components[c.name].options.defaultSchema)
    && s[i].data == (if es[i].Saved? then es[i].data else None)
    && s[i].isHeader == (if es[i].Saved? then c.isHeader else None)
  }

  lemma ResolvedSectionsRebuilt(components: Components, first: SectionId, es: seq<Entry>)
    requires ResolveAll(components, es).Ok?
    ensures Rebuilt(components, first, es, NewSections(first, ResolveAll(components, es).value))
  {
    var opts := ResolveAll(components, es).value;
    var s := NewSections(first, opts);
    forall i | 0 <= i < |es|
      ensures RebuiltAt(components, first, es, s, i)
    {
      assert s[i] == NewSection(first + i, ResolveEntry(components, es[i]).value);
    }
  }

  datatype Status = Done | Threw(error: RegistryError)

  /** The builder after `set`, and whether it threw. */
  datatype SetOutcome = SetOutcome(after: Builder, status: Status)

  /** `set(data)`.  The title is taken over first whenever the snapshot has
      one.  Then, when the snapshot has a sections array, every entry is
      resolved through the registry: on success the list is replaced by the
      rebuilt one; on the first unresolved name the call throws and the list
      is left as it was (the title having already changed). */
  function Set(b: Builder, data: SetData): (r: SetOutcome)
    ensures r.after.title == data.title.GetOr(b.title)
    ensures r.status.Done? <==>
      (data.sections.None? || forall i :: 0 <= i < |data.sections.value| ==> Resolvable(b.components, data.sections.value[i]))
    ensures r.status.Threw? || data.sections.None? ==> r.after == b.(title := data.title.GetOr(b.title))
    ensures r.status.Done? && data.sections.Some? ==>
      && Rebuilt(b.components, b.nextId, data.sections.value, r.after.sections)
      && r.after == b.(title := r.after.title, sections := r.after.sections, nextId := b.nextId + |data.sections.value|)
  {
    var titled := b.(title := data.title.GetOr(b.title));
    match data.sections
    case None => SetOutcome(titled, Done)
    case Some(es) =>
      match ResolveAll(b.components, es)
      case Err(e) => SetOutcome(titled, Threw(e))
      case Ok(opts) =>
        ResolvedSectionsRebuilt(b.components, b.nextId, es);
        SetOutcome(titled.(sections := NewSections(b.nextId, opts), nextId := b.nextId + |es|), Done)
  }

  /** A successful `set` keeps section ids unique. */
  lemma SetKeepsWellFormed(b: Builder, data: SetData)
    requires WellFormed(b)
    ensures WellFormed(Set(b, data).after)
  {
    var r := Set(b, data);
    if r.status.Done? && data.sections.Some? {
      var s := r.after.sections;
      assert forall i :: 0 <= i < |s| ==> s[i].id == b.nextId + i;
    }
  }
}
