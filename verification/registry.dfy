/** Component descriptors as the builder stores them, and the process-wide
    mixin object that `mix` deep-merges into. */
module Registry {
  import opened Outcome
  import opened Values
  import opened Sections

  // ------------------------------------------------------------------ mixier

  /** A value of the shared mixin object: a scalar, or a nested object. */
  datatype MixValue = Leaf(text: string) | Tree(children: map<string, MixValue>)

  type MixObject = map<string, MixValue>

  /** lodash `merge` of one value into another: two objects merge key by key,
      anything else is replaced by the incoming value. */
  function MergeValue(into: MixValue, from: MixValue): MixValue
    decreases from, 1
  {
    match (into, from)
    case (Tree(a), Tree(b)) => Tree(MergeObject(a, b))
    case _ => from
  }

  /** `merge(into, from)` on objects: every key of either side is kept; two
      nested objects under the same key are merged recursively; otherwise the
      incoming value wins. */
  function MergeObject(into: MixObject, from: MixObject): (r: MixObject)
    decreases Tree(from), 0
    ensures r.Keys == into.Keys + from.Keys
    ensures forall k :: k in into && k !in from ==> r[k] == into[k]
    ensures forall k :: k in into && k in from && into[k].Tree? && from[k].Tree? ==>
      r[k] == Tree(MergeObject(into[k].children, from[k].children))
    ensures forall k :: k in from && !(k in into && into[k].Tree? && from[k].Tree?) ==> r[k] == from[k]
  {
    map k | k in into.Keys + from.Keys ::
      if k in into && k in from then MergeValue(into[k], from[k])
      else if k in from then from[k]
      else into[k]
  }

  lemma {:induction false} MergeValueSelf(v: MixValue)
    ensures MergeValue(v, v) == v
    decreases v, 1
  {
    if v.Tree? {
      MergeObjectSelf(v.children);
    }
  }

  lemma {:induction false} MergeObjectSelf(m: MixObject)
    ensures MergeObject(m, m) == m
    decreases Tree(m), 0
  {
    forall k | k in m
      ensures MergeObject(m, m)[k] == m[k]
    {
      MergeValueSelf(m[k]);
    }
  }

  lemma {:induction false} MergeValueAgain(a: MixValue, b: MixValue)
    ensures MergeValue(MergeValue(a, b), b) == MergeValue(a, b)
    decreases b, 1
  {
    match (a, b)
    case (Tree(x), Tree(y)) => MergeObjectAgain(x, y);
    case (_, Tree(y)) => MergeValueSelf(b);
    case _ =>
  }

  /** Merging the same object in twice changes nothing the second time. */
  lemma {:induction false} MergeObjectAgain(a: MixObject, b: MixObject)
    ensures MergeObject(MergeObject(a, b), b) == MergeObject(a, b)
    decreases Tree(b), 0
  {
    var ab := MergeObject(a, b);
    forall k | k in ab
      ensures MergeObject(ab, b)[k] == ab[k]
    {
      if k in b {
        if k in a {
          MergeValueAgain(a[k], b[k]);
        } else {
          MergeValueSelf(b[k]);
        }
      }
    }
  }

  /** `mixier.components`: the shared sub-components, if any were mixed in. */
  function SharedComponents(mixier: MixObject): Option<MixValue> {
    if "components" in mixier then Some(mixier["components"]) else None
  }

  // -------------------------------------------------------------- components

  /** The options a section type declares (`definition.options` once extended). */
  datatype ComponentOptions = ComponentOptions(
    name: string,
    group: Option<string>,
    schema: Option<Schema>,
    defaultSchema: Option<Schema>,   // `$schema`
    isHeader: Option<bool>)

  /** A component definition handed to `component`: a plain options object, or
      an already-extended constructor (one that has `extend`). */
  datatype Definition = Definition(options: ComponentOptions, isConstructor: bool)

  /** A registry entry: the definition's options, augmented once at
      registration with the styler directive, the builder mixin and the shared
      sub-components current at that moment. */
  datatype Registered = Registered(
    options: ComponentOptions,
    styler: bool,
    mixin: bool,
    shared: Option<MixValue>)

  /** The two call shapes of `component`: `(name, definition)`, or a single
      argument.  A single plain object is the definition and its `name` field
      the key; a single constructor is not an `object`, so no definition is
      taken from it. */
  datatype ComponentArgs = Named(name: string, definition: Definition) | Inline(definition: Definition)

  function KeyOf(args: ComponentArgs): string {
    match args
    case Named(n, _) => n
    case Inline(d) => d.options.name
  }

  datatype RegistryError =
    | VueNotInstalled            // `_Vue.extend` reached before `install`
    | MissingDefinition          // a lone constructor: `definition` stays undefined
    | Unregistered(name: string) // `this.components[name]` is undefined

  type Components = map<string, Registered>
}
