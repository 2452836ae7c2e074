/** Process-wide state and the builder's life cycle: the queue of pending
    plugins (`use`), the shared mixin object (`mix`), construction (which
    drains the queue) and the one-shot `install` guard. */
module Plugins {
  import opened Outcome
  import opened Sections
  import opened Registry
  import opened Document

  /** What a plugin does when it is run with the builder. */
  datatype PluginFn =
    | ComponentPlugin(args: ComponentArgs)       // made by the static `component`
    | StylerPlugin                               // attaches the styler directive
    | MixinPlugin                                // attaches the builder mixin
    | PackagerPlugin                             // installs `download` (zip / pwa export)
    | ForeignPlugin(tag: string, throws: bool)   // any other installer: it throws, or leaves the builder as it is

  /** The value handed to `use`: a function, or anything else. */
  datatype PluginArg = Callable(fn: PluginFn) | NotCallable

  type PluginOptions = map<string, string>

  /** An entry of the pending queue, `{plugin, options}`. */
  datatype QueuedPlugin = QueuedPlugin(plugin: PluginFn, options: PluginOptions)

  /** The host runtime `install` is called with (opaque). */
  datatype HostRuntime = HostRuntime(tag: nat)

  /** The module-level state: the pending queue, the shared mixin object, the
      installed runtime (`_Vue`), and the log of every plugin invocation so far. */
  datatype Globals = Globals(
    queue: seq<QueuedPlugin>,
    mixier: MixObject,
    vue: Option<HostRuntime>,
    invoked: seq<QueuedPlugin>)

  /** The state once the module has loaded: the styler and mixin plugins are queued. */
  const Loaded := Globals([QueuedPlugin(StylerPlugin, map[]), QueuedPlugin(MixinPlugin, map[])], map[], None, [])

  // ----------------------------------------------------------- registration

  /** `use(plugin, options)`: a function is appended to the queue; anything
      else only draws a warning and changes nothing. */
  function Use(g: Globals, arg: PluginArg, options: PluginOptions): (r: Globals)
    ensures arg.NotCallable? ==> r == g
    ensures arg.Callable? ==> r.queue == g.queue + [QueuedPlugin(arg.fn, options)]
    ensures r.(queue := g.queue) == g
  {
    match arg
    case NotCallable => g
    case Callable(fn) => g.(queue := g.queue + [QueuedPlugin(fn, options)])
  }

  /** The static `component(name, definition)`: queues a plugin that registers
      the component when the builder is constructed. */
  function RegisterComponent(g: Globals, args: ComponentArgs): (r: Globals)
    ensures r.queue == g.queue + [QueuedPlugin(ComponentPlugin(args), map[])]
    ensures r.(queue := g.queue) == g
  {
    Use(g, Callable(ComponentPlugin(args)), map[])
  }

  /** `mix(obj)`: deep-merges `obj` into the shared mixin object; every key of
      either survives, nested objects under a shared key merge recursively and
      any other incoming value wins. */
  function Mix(g: Globals, obj: MixObject): (r: Globals)
    ensures r.mixier.Keys == g.mixier.Keys + obj.Keys
    ensures forall k :: k in g.mixier && k !in obj ==> r.mixier[k] == g.mixier[k]
    ensures forall k :: k in g.mixier && k in obj && g.mixier[k].Tree? && obj[k].Tree? ==>
      r.mixier[k] == Tree(MergeObject(g.mixier[k].children, obj[k].children))
    ensures forall k :: k in obj && !(k in g.mixier && g.mixier[k].Tree? && obj[k].Tree?) ==> r.mixier[k] == obj[k]
    ensures r.(mixier := g.mixier) == g
  {
    g.(mixier := MergeObject(g.mixier, obj))
  }

  /** Mixing the same object in twice is the same as mixing it in once. */
  lemma MixTwice(g: Globals, obj: MixObject)
    ensures Mix(Mix(g, obj), obj) == Mix(g, obj)
  {
    MergeObjectAgain(g.mixier, obj);
  }

  // ---------------------------------------------------------------- draining

  /** Why running a plugin threw. */
  datatype PluginError = ComponentError(error: RegistryError) | PluginThrew(tag: string)

  /** Whether a plugin throws when it is run; it does not depend on the builder. */
  predicate Throws(g: Globals, p: PluginFn) {
    match p
    case ComponentPlugin(args) =>
      (args.Inline? && args.definition.isConstructor) || (!args.definition.isConstructor && g.vue.None?)
    case ForeignPlugin(_, throws) => throws
    case _ => false
  }

  /** Running one plugin against the builder (`ctx.plugin({builder, Vue}, options)`). */
  function RunPlugin(b: Builder, g: Globals, p: PluginFn): (r: Result<Builder, PluginError>)
    ensures r.Err? <==> Throws(g, p)
    ensures r.Ok? && p.ComponentPlugin? ==>
      && KeyOf(p.args) in r.value.components
      && r.value.components[KeyOf(p.args)].options == p.args.definition.options
      && r.value.components[KeyOf(p.args)].styler == b.styler
      && r.value.components[KeyOf(p.args)].mixin == b.mixin
      && (forall k :: k != KeyOf(p.args) ==>
            (k in r.value.components <==> k in b.components)
            && (k in b.components ==> r.value.components[k] == b.components[k]))
    ensures r.Ok? && !p.ComponentPlugin? ==> r.value.components == b.components
    ensures r.Ok? ==> r.value.styler == (b.styler || p.StylerPlugin?) && r.value.mixin == (b.mixin || p.MixinPlugin?)
    ensures r.Ok? ==> r.value.hasDownload == (b.hasDownload || p.PackagerPlugin?)
    ensures r.Ok? ==>
      r.value.(components := b.components, styler := b.styler, mixin := b.mixin, hasDownload := b.hasDownload) == b
  {
    match p
    case ComponentPlugin(args) =>
      (match Component(b, g.vue.Some?, g.mixier, args)
       case Err(e) => Err(ComponentError(e))
       case Ok(b') => Ok(b'))
    case StylerPlugin => Ok(b.(styler := true))
    case MixinPlugin => Ok(b.(mixin := true))
    case PackagerPlugin => Ok(b.(hasDownload := true))
    case ForeignPlugin(tag, throws) => if throws then Err(PluginThrew(tag)) else Ok(b)
  }

  datatype Failure = Failure(at: nat, error: PluginError)

  /** The plugins run one after another in queue order; the first one that
      throws stops the run. */
  function RunAll(b: Builder, g: Globals, ps: seq<QueuedPlugin>): (r: Result<Builder, Failure>)
    ensures r.Ok? <==> forall i :: 0 <= i < |ps| ==> !Throws(g, ps[i].plugin)
    ensures r.Err? ==>
      && r.error.at < |ps|
      && Throws(g, ps[r.error.at].plugin)
      && forall i :: 0 <= i < r.error.at ==> !Throws(g, ps[i].plugin)
    ensures r.Ok? ==> b.components.Keys <= r.value.components.Keys
    ensures r.Ok? ==> forall i :: 0 <= i < |ps| && ps[i].plugin.ComponentPlugin? ==>
      KeyOf(ps[i].plugin.args) in r.value.components
    ensures r.Ok? ==> (b.styler ==> r.value.styler) && (b.mixin ==> r.value.mixin)
    ensures r.Ok? ==>
      r.value.(components := b.components, styler := b.styler, mixin := b.mixin, hasDownload := b.hasDownload) == b
    decreases |ps|
  {
    if |ps| == 0 then Ok(b)
    else
      var last := ps[|ps| - 1];
      assert forall i :: 0 <= i < |ps| - 1 ==> ps[i] == ps[..|ps| - 1][i];
      match RunAll(b, g, ps[..|ps| - 1])
      case Err(f) => Err(f)
      case Ok(b') =>
        match RunPlugin(b', g, last.plugin)
        case Err(e) => Err(Failure(|ps| - 1, e))
        case Ok(b'') => Ok(b'')
  }

  /** `ps[i]` is the last component plugin in `ps` registering its key. */
  predicate LastForKey(ps: seq<QueuedPlugin>, i: nat)
    requires i < |ps|
  {
    && ps[i].plugin.ComponentPlugin?
    && forall j :: i < j < |ps| && ps[j].plugin.ComponentPlugin? ==>
         KeyOf(ps[j].plugin.args) != KeyOf(ps[i].plugin.args)
  }

  /** Because plugins run in queue order, the entry under a key is the
      definition of the last component plugin that registers it. */
  lemma {:induction false} RunAllLastWins(b: Builder, g: Globals, ps: seq<QueuedPlugin>, i: nat)
    requires i < |ps| && LastForKey(ps, i)
    requires RunAll(b, g, ps).Ok?
    ensures var key := KeyOf(ps[i].plugin.args);
      && key in RunAll(b, g, ps).value.components
      && RunAll(b, g, ps).value.components[key].options == ps[i].plugin.args.definition.options
    decreases |ps|
  {
    var init := ps[..|ps| - 1];
    assert forall j :: 0 <= j < |init| ==> init[j] == ps[j];
    if i < |ps| - 1 {
      assert LastForKey(init, i);
      RunAllLastWins(b, g, init, i);
    }
  }

  /** Every registered component carries the styler directive and the mixin. */
  predicate Augmented(c: Components) {
    forall k :: k in c ==> c[k].styler && c[k].mixin
  }

  /** Once the styler and mixin are attached, every component registered later
      carries both. */
  lemma {:induction false} RunAllKeepsAugmented(b: Builder, g: Globals, ps: seq<QueuedPlugin>)
    requires b.styler && b.mixin && Augmented(b.components)
    requires RunAll(b, g, ps).Ok?
    ensures Augmented(RunAll(b, g, ps).value.components)
    decreases |ps|
  {
    if |ps| > 0 {
      var init := ps[..|ps| - 1];
      RunAllKeepsAugmented(b, g, init);
    }
  }

  /** Running a queue is running its first `n` plugins, then the rest. */
  lemma {:induction false} RunAllSplit(b: Builder, g: Globals, ps: seq<QueuedPlugin>, n: nat)
    requires n <= |ps| && RunAll(b, g, ps).Ok?
    ensures RunAll(b, g, ps[..n]).Ok?
    ensures RunAll(RunAll(b, g, ps[..n]).value, g, ps[n..]) == RunAll(b, g, ps)
    decreases |ps|
  {
    if n == |ps| {
      assert ps[..n] == ps;
      assert ps[n..] == [];
    } else {
      var init := ps[..|ps| - 1];
      RunAllSplit(b, g, init, n);
      assert init[..n] == ps[..n];
      assert ps[n..][..|ps[n..]| - 1] == init[n..];
      assert ps[n..][|ps[n..]| - 1] == ps[|ps| - 1];
    }
  }

  /** With the queue the module sets up at load time (styler, then mixin, then
      the rest), every component registered while draining carries both. */
  lemma LoadedQueueAugments(b: Builder, g: Globals, ps: seq<QueuedPlugin>)
    requires |ps| >= 2 && ps[..2] == Loaded.queue
    requires Augmented(b.components)
    requires RunAll(b, g, ps).Ok?
    ensures Augmented(RunAll(b, g, ps).value.components)
  {
    RunAllSplit(b, g, ps, 2);
    var mid := RunAll(b, g, ps[..2]).value;
    assert ps[..2][..1] == [ps[0]] && ps[..2][..1][..0] == [];
    RunAllKeepsAugmented(mid, g, ps[2..]);
  }

  datatype Drained = Drained(builder: Builder, globals: Globals)

  /** The state left when a plugin threw: the plugins up to and including the
      failing one have run, and the queue was not reset. */
  datatype Aborted = Aborted(globals: Globals, error: PluginError)

  /** `installPlugins()`: every queued plugin is invoked, in registration
      order, and the queue is then emptied so that none runs twice.  A plugin
      that throws stops the loop before the queue is reset. */
  function InstallPlugins(b: Builder, g: Globals): (r: Result<Drained, Aborted>)
    ensures r.Ok? <==> forall i :: 0 <= i < |g.queue| ==> !Throws(g, g.queue[i].plugin)
    ensures r.Ok? ==> r.value.globals == g.(queue := [], invoked := g.invoked + g.queue)
    ensures r.Ok? ==> forall i :: 0 <= i < |g.queue| && g.queue[i].plugin.ComponentPlugin? ==>
      KeyOf(g.queue[i].plugin.args) in r.value.builder.components
    ensures r.Err? ==>
      var n := |r.error.globals.invoked| - |g.invoked|;
      && 0 < n <= |g.queue|
      && r.error.globals == g.(invoked := g.invoked + g.queue[..n])
      && Throws(g, g.queue[n - 1].plugin)
      && forall i :: 0 <= i < n - 1 ==> !Throws(g, g.queue[i].plugin)
    ensures r.Ok? ==>
      var d := r.value.builder;
      d.(components := b.components, styler := b.styler, mixin := b.mixin, hasDownload := b.hasDownload) == b
  {
    match RunAll(b, g, g.queue)
    case Ok(b') => Ok(Drained(b', g.(queue := [], invoked := g.invoked + g.queue)))
    case Err(f) => Err(Aborted(g.(invoked := g.invoked + g.queue[..f.at + 1]), f.error))
  }

  /** Draining a second time invokes nothing and changes nothing. */
  lemma DrainTwice(b: Builder, g: Globals)
    requires InstallPlugins(b, g).Ok?
    ensures var d := InstallPlugins(b, g).value;
      InstallPlugins(d.builder, d.globals) == Ok(d)
  {
    var d := InstallPlugins(b, g).value;
    assert d.globals.invoked + [] == d.globals.invoked;
  }

  // ------------------------------------------------------------ construction

  /** The options `install` accepts; an absent field takes the default. */
  datatype BuilderOptions = BuilderOptions(
    landing: Option<string>,
    title: Option<string>,
    intro: Option<bool>,
    sections: Option<seq<Section>>,
    themes: Option<seq<string>>,
    columnsPrefix: Option<map<string, string>>,
    css: Option<string>,
    js: Option<string>)

  const DefaultColumnsPrefix: map<string, string> := map[
    "mobile" := "is-mobile-",
    "tablet" := "is-tablet-",
    "desktop" := "is-desktop-",
    "widescreen" := "is-widescreen-",
    "ultrawide" := "is-ultrawide-"]

  const DefaultScript := "./../js/cjs.js"

  /** The builder the constructor sets up before draining: editing mode, an
      empty registry, and the option values over the defaults of
      `BUILDER_OPTIONS` (a missing or empty script path falls back to the
      default one). */
  function Initial(o: BuilderOptions): (b: Builder)
    ensures b.isEditing && !b.isRendered
    ensures b.title == o.title.GetOr("") && b.landing == o.landing.GetOr("")
    ensures b.intro == o.intro.GetOr(true)
    ensures b.themes == o.themes.GetOr([])
    ensures b.columnsPrefix == o.columnsPrefix.GetOr(DefaultColumnsPrefix)
    ensures b.assets.css == o.css
    ensures b.assets.js == if o.js.Some? && o.js.value != "" then o.js.value else DefaultScript
    ensures b.settings.None? && !b.styler && !b.mixin && !b.hasDownload
    ensures b.components == map[] && b.destroyed == []
    ensures b.sections == o.sections.GetOr([])
    ensures UniqueIds(o.sections.GetOr([])) ==> WellFormed(b)
  {
    var sections := o.sections.GetOr([]);
    Builder(
      true, false,
      o.title.GetOr(""), o.landing.GetOr(""), o.intro.GetOr(true),
      sections,
      o.columnsPrefix.GetOr(DefaultColumnsPrefix), o.themes.GetOr([]),
      map[],
      Assets(o.css, if o.js.Some? && o.js.value != "" then o.js.value else DefaultScript),
      None,
      false, false, false,
      NextFreeId(sections),
      [])
  }

  /** What `install` did: nothing, built the builder, or let a plugin's
      exception escape from the constructor. */
  datatype InstallOutcome = AlreadyInstalled | Installed(builder: Builder) | Threw(error: PluginError)

  datatype Installation = Installation(globals: Globals, outcome: InstallOutcome)

  /** `install(Vue, options)`: the first call records the runtime and
      constructs the builder, which drains every pending plugin; any later
      call does nothing.  The runtime is recorded before construction, so a
      plugin that throws leaves it recorded and the queue undrained. */
  function Install(g: Globals, vue: HostRuntime, options: BuilderOptions): (r: Installation)
    ensures g.vue.Some? ==> r == Installation(g, AlreadyInstalled)
    ensures g.vue.None? ==> r.globals.vue == Some(vue) && !r.outcome.AlreadyInstalled?
    ensures g.vue.None? ==>
      (r.outcome.Installed? <==> forall i :: 0 <= i < |g.queue| ==> !Throws(r.globals, g.queue[i].plugin))
    ensures r.outcome.Installed? ==>
      && r.globals == g.(vue := Some(vue), queue := [], invoked := g.invoked + g.queue)
      && r.outcome.builder.(components := map[], styler := false, mixin := false, hasDownload := false)
           == Initial(options)
      && (forall i :: 0 <= i < |g.queue| && g.queue[i].plugin.ComponentPlugin? ==>
            KeyOf(g.queue[i].plugin.args) in r.outcome.builder.components)
    ensures r.outcome.Threw? ==>
      var n := |r.globals.invoked| - |g.invoked|;
      && 0 < n <= |g.queue|
      && r.globals == g.(vue := Some(vue), invoked := g.invoked + g.queue[..n])
  {
    if g.vue.Some? then Installation(g, AlreadyInstalled)
    else
      match InstallPlugins(Initial(options), g.(vue := Some(vue)))
      case Ok(d) => Installation(d.globals, Installed(d.builder))
      case Err(a) => Installation(a.globals, Threw(a.error))
  }

  /** A second `install` is a no-op: nothing is constructed and no plugin runs again. */
  lemma InstallOnce(g: Globals, v1: HostRuntime, o1: BuilderOptions, v2: HostRuntime, o2: BuilderOptions)
    ensures var first := Install(g, v1, o1);
      Install(first.globals, v2, o2) == Installation(first.globals, AlreadyInstalled)
  {
  }

  /** When a plugin throws during the first `install`, no builder is ever
      constructed: every later `install` returns early, and the plugins after
      the failing one stay queued and never run. */
  lemma FailedInstallIsFinal(g: Globals, v1: HostRuntime, o1: BuilderOptions, v2: HostRuntime, o2: BuilderOptions)
    requires g.vue.None?
    requires Install(g, v1, o1).outcome.Threw?
    ensures var first := Install(g, v1, o1);
      && first.globals.queue == g.queue
      && |first.globals.invoked| <= |g.invoked| + |g.queue|
      && Install(first.globals, v2, o2) == Installation(first.globals, AlreadyInstalled)
  {
  }

  /** With the queue the module sets up at load time, every component the
      constructor registers carries the styler directive and the mixin. */
  lemma InstallAugments(g: Globals, vue: HostRuntime, o: BuilderOptions)
    requires g.vue.None? && |g.queue| >= 2 && g.queue[..2] == Loaded.queue
    requires Install(g, vue, o).outcome.Installed?
    ensures Augmented(Install(g, vue, o).outcome.builder.components)
  {
    LoadedQueueAugments(Initial(o), g.(vue := Some(vue)), g.queue);
  }

  /** A plugin registered after a successful `install` waits in the queue; a
      repeated `install` does not run it, and the next construction runs it
      exactly once unless it throws. */
  lemma LatePluginDeferred(g: Globals, vue: HostRuntime, o: BuilderOptions, p: PluginFn, po: PluginOptions, o2: BuilderOptions)
    requires g.vue.None?
    requires Install(g, vue, o).outcome.Installed?
    ensures var installed := Install(g, vue, o).globals;
      var late := Use(installed, Callable(p), po);
      && late.queue == [QueuedPlugin(p, po)]
      && late.invoked == installed.invoked
      && Install(late, vue, o2).outcome.AlreadyInstalled?
      && (InstallPlugins(Initial(o2), late).Ok? <==> !Throws(late, p))
      && (InstallPlugins(Initial(o2), late).Ok? ==>
            && InstallPlugins(Initial(o2), late).value.globals.invoked == installed.invoked + [QueuedPlugin(p, po)]
            && InstallPlugins(Initial(o2), late).value.globals.queue == [])
  {
  }
}
