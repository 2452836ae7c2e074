/** `toJSON` and `export`: the document snapshot, with the HTML elements that
    sub-component descriptors embed replaced by detached clones. */
module Serialize {
  import opened Outcome
  import opened Values
  import opened Sections
  import opened Markup
  import opened Registry
  import opened Document
  import opened Restore

  /** JavaScript's TypeError from reading a property through `undefined`/`null`,
      or calling `map` on something that is not an array. */
  datatype SerializeError = TypeError

  /** Data keys holding sub-component arrays (`/^components/`). */
  predicate IsComponentsKey(key: string) {
    StartsWith(key, "components")
  }

  /** The value with every embedded element detached: what is left once
      runtime-only node state is ignored. */
  function Detach(v: Value): Value {
    match v
    case Element(n) => Element(CloneNode(n))
    case List(items) => List(seq(|items|, i requires 0 <= i < |items| => Detach(items[i])))
    case Record(fields) => Record(map k | k in fields :: Detach(fields[k]))
    case _ => v
  }

  // ------------------------------------------------- one sub-component item

  /** `c.element.hasOwnProperty(...)` can be evaluated: `c.element` exists and
      is not null. */
  predicate ItemReadable(c: Value) {
    c.Record? && "element" in c.fields && !c.fields["element"].Null?
  }

  /** No live element sits at `c.element.element`. */
  predicate HandleDetached(c: Value) {
    c.Record? && "element" in c.fields &&
    match c.fields["element"]
    case Record(g) => "element" in g && g["element"].Element? ==> !g["element"].node.connected
    case _ => true
  }

  /** One descriptor of a components array: when `c.element` has its own
      `element` field holding an HTML element, that element is replaced by
      its clone; anything else is left alone. */
  function CloneItem(c: Value): (r: Result<Value, SerializeError>)
    ensures r.Ok? <==> ItemReadable(c)
    ensures r.Ok? ==> HandleDetached(r.value) && Detach(r.value) == Detach(c)
  {
    if !ItemReadable(c) then Err(TypeError)
    else
      match c.fields["element"]
      case Record(g) =>
        if "element" in g && g["element"].Element? then
          var g' := g["element" := Element(CloneNode(g["element"].node))];
          var c' := Record(c.fields["element" := Record(g')]);
          DetachUpdate(g, "element", Element(CloneNode(g["element"].node)));
          DetachUpdate(c.fields, "element", Record(g'));
          Ok(c')
        else Ok(c)
      case _ => Ok(c)
  }

  /** Replacing a field by a value that detaches to the same thing does not
      change the detached record. */
  lemma DetachUpdate(f: map<string, Value>, k: string, v: Value)
    requires k in f && Detach(v) == Detach(f[k])
    ensures Detach(Record(f[k := v])) == Detach(Record(f))
  {
    var f' := f[k := v];
    assert (map j | j in f' :: Detach(f'[j])) == (map j | j in f :: Detach(f[j]));
  }

  /** `value.map(...)` over a components array. */
  function CloneItems(items: seq<Value>): (r: Result<seq<Value>, SerializeError>)
    ensures r.Ok? <==> forall i :: 0 <= i < |items| ==> ItemReadable(items[i])
    ensures r.Ok? ==> (|r.value| == |items|
      && forall i :: 0 <= i < |items| ==> r.value[i] == CloneItem(items[i]).value)
  {
    if |items| == 0 then Ok([])
    else
      var head := CloneItem(items[0]);
      var tail := CloneItems(items[1..]);
      assert forall i :: 1 <= i < |items| ==> items[i] == items[1..][i - 1];
      if head.Err? || tail.Err? then Err(TypeError)
      else Ok([head.value] + tail.value)
  }

  // ------------------------------------------------------------ a data object

  /** The `mapValues` callback can run on this entry. */
  predicate EntryReadable(key: string, v: Value) {
    IsComponentsKey(key) ==> v.List? && forall i :: 0 <= i < |v.items| ==> ItemReadable(v.items[i])
  }

  function TransformEntry(key: string, v: Value): (r: Value)
    requires EntryReadable(key, v)
  {
    if IsComponentsKey(key) then List(CloneItems(v.items).value) else v
  }

  /** `d2` is `d` as serialised: same keys, every other key's value untouched,
      and each components array equal to the original up to runtime-only
      node state, with no live element left at `c.element.element`. */
  predicate Serialized(d: Data, d2: Data) {
    && d2.Keys == d.Keys
    && (forall k :: k in d && !IsComponentsKey(k) ==> d2[k] == d[k])
    && (forall k :: k in d && IsComponentsKey(k) ==>
          && d2[k].List? && d[k].List?
          && |d2[k].items| == |d[k].items|
          && forall i :: 0 <= i < |d2[k].items| ==>
               HandleDetached(d2[k].items[i]) && Detach(d2[k].items[i]) == Detach(d[k].items[i]))
  }

  /** `_.mapValues(data, ...)`: throws if any components entry is unreadable. */
  function TransformData(d: Data): (r: Result<Data, SerializeError>)
    ensures r.Ok? <==> forall k :: k in d ==> EntryReadable(k, d[k])
    ensures r.Ok? ==> Serialized(d, r.value)
  {
    if forall k :: k in d ==> EntryReadable(k, d[k]) then
      Ok(map k | k in d :: TransformEntry(k, d[k]))
    else Err(TypeError)
  }

  // ------------------------------------------------------------ the snapshot

  datatype SavedSection = SavedSection(name: string, data: Data)

  /** The JSON document `toJSON` produces (as a structured value). */
  datatype Snapshot = Snapshot(slug: string, title: string, settings: Option<Settings>, sections: seq<SavedSection>)

  /** The snapshot, and the builder afterwards: the clones are written back
      into the very descriptor objects the sections hold. */
  datatype JsonOut = JsonOut(doc: Snapshot, builder: Builder)

  predicate SectionReadable(s: Section) {
    TransformData(s.data.GetOr(map[])).Ok?
  }

  function SaveSection(s: Section): SavedSection
    requires SectionReadable(s)
  {
    SavedSection(s.name, TransformData(s.data.GetOr(map[])).value)
  }

  /** The section after serialisation: its data object (if it has one) now
      holds the clones. */
  function WrittenBack(s: Section): Section
    requires SectionReadable(s)
  {
    s.(data := if s.data.Some? then Some(SaveSection(s).data) else None)
  }

  /** `toJSON()`: slug, title and settings of the builder, and one `{name, data}`
      per section in order, each data object serialised; throws a TypeError
      when some components entry cannot be read. */
  function ToJSON(b: Builder): (r: Result<JsonOut, SerializeError>)
    ensures r.Ok? <==> forall i :: 0 <= i < |b.sections| ==> SectionReadable(b.sections[i])
    ensures r.Ok? ==>
      var doc, s := r.value.doc, b.sections;
      && doc.slug == b.landing
      && doc.title == b.title
      && doc.settings == b.settings
      && |doc.sections| == |s|
      && (forall i :: 0 <= i < |s| ==>
            && doc.sections[i].name == s[i].name
            && Serialized(s[i].data.GetOr(map[]), doc.sections[i].data))
      && |r.value.builder.sections| == |s|
      && (forall i :: 0 <= i < |s| ==>
            r.value.builder.sections[i] == s[i].(data := if s[i].data.Some? then Some(doc.sections[i].data) else None))
      && r.value.builder == b.(sections := r.value.builder.sections)
  {
    var s := b.sections;
    if forall i :: 0 <= i < |s| ==> SectionReadable(s[i]) then
      var saved := seq(|s|, i requires 0 <= i < |s| => SaveSection(s[i]));
      var after := seq(|s|, i requires 0 <= i < |s| => WrittenBack(s[i]));
      Ok(JsonOut(Snapshot(b.landing, b.title, b.settings, saved), b.(sections := after)))
    else Err(TypeError)
  }

  // ------------------------------------------------------------------ export

  datatype ExportOutcome =
    | Download(assets: Assets)  // handed to the packaging plugin's `download`
    | MissingPackager           // warned: no packaging plugin installed
    | Preview                   // the preview window was opened
    | Json(doc: Snapshot)
    | Failed(error: SerializeError)

  datatype Exported = Exported(outcome: ExportOutcome, after: Builder)

  /** `export(method)`: `'pwa'` and `'zip'` go to the packaging plugin (or a
      warning without one), `'preview'` opens the preview, and every other
      method — including the default `'json'` — serialises. */
  function Export(b: Builder, how: string): (r: Exported)
    ensures how == "pwa" || how == "zip" ==>
      r.after == b && r.outcome == if b.hasDownload then Download(b.assets) else MissingPackager
    ensures how == "preview" ==> r == Exported(Preview, b)
    ensures how != "pwa" && how != "zip" && how != "preview" ==>
      && (r.outcome.Json? <==> ToJSON(b).Ok?)
      && (r.outcome.Json? ==> r.outcome.doc == ToJSON(b).value.doc && r.after == ToJSON(b).value.builder)
      && (!r.outcome.Json? ==> r == Exported(Failed(TypeError), b))
  {
    if how == "pwa" || how == "zip" then
      Exported(if b.hasDownload then Download(b.assets) else MissingPackager, b)
    else if how == "preview" then Exported(Preview, b)
    else
      match ToJSON(b)
      case Ok(out) => Exported(Json(out.doc), out.builder)
      case Err(e) => Exported(Failed(e), b)
  }

  // -------------------------------------------------------------- round trip

  /** The snapshot fed back to `set`. */
  function Reload(doc: Snapshot): SetData {
    SetData(Some(doc.title),
            Some(seq(|doc.sections|, i requires 0 <= i < |doc.sections| =>
                   Saved(doc.sections[i].name, Some(doc.sections[i].data)))))
  }

  /** The entry registered under `name` carries `name` in its options. */
  predicate SelfNamed(components: Components, name: string) {
    name in components && components[name].options.name == name
  }

  /** Exporting and then restoring the snapshot rebuilds the same sections: as
      many, in the same order, with the same names and the serialised data;
      header flags come from the registry. */
  lemma SetAfterExportRestores(b: Builder)
    requires ToJSON(b).Ok?
    requires forall i :: 0 <= i < |b.sections| ==> SelfNamed(b.components, b.sections[i].name)
    ensures var out := ToJSON(b).value;
      var r := Set(out.builder, Reload(out.doc));
      && r.status.Done?
      && r.after.title == b.title
      && |r.after.sections| == |b.sections|
      && forall i :: 0 <= i < |b.sections| ==>
           && r.after.sections[i].name == b.sections[i].name
           && r.after.sections[i].data == Some(out.doc.sections[i].data)
           && Serialized(b.sections[i].data.GetOr(map[]), out.doc.sections[i].data)
           && r.after.sections[i].isHeader == b.components[b.sections[i].name].options.isHeader
  {
    var out := ToJSON(b).value;
    var data := Reload(out.doc);
    var es := data.sections.value;
    assert out.builder.components == b.components;
    forall i | 0 <= i < |es|
      ensures Resolvable(b.components, es[i])
    {
      assert es[i].name == b.sections[i].name;
    }
    var r := Set(out.builder, data);
    forall i | 0 <= i < |b.sections|
      ensures r.after.sections[i].name == b.sections[i].name
      ensures r.after.sections[i].data == Some(out.doc.sections[i].data)
      ensures r.after.sections[i].isHeader == b.components[b.sections[i].name].options.isHeader
    {
      assert RebuiltAt(b.components, out.builder.nextId, es, r.after.sections, i);
      assert es[i] == Saved(b.sections[i].name, Some(out.doc.sections[i].data));
    }
  }
}
