# Vuse document model, in Dafny

This project models the document core of the Vuse page builder (`src/editor/vuse.js`).
A page is an ordered list of typed sections. The builder edits that list
(`add`, `find`, `remove`, `sort`, `clear`). It rebuilds the list from a saved
snapshot through its component registry (`set`), and serialises it back
(`toJSON`, `export`). Plugins queued with `use` run once, when the builder is
constructed by the one-shot `install`. A component is registered with the
builder's styler directive and mixin, and with the shared sub-components
(`mixier.components`) current at registration time (`component`, `mix`). The
export also assembles HTML and configuration fragments from the page settings:
cookie notice, custom CSS and JS, body styles, full-page-scroll setup, Google
Tag Manager snippets, the web-app manifest and Open Graph tags.

Everything is immutable data and pure functions. The builder is a `Builder`
record, and the module-level variables (`PLUGINS`, `mixier`, `_Vue`) are a
`Globals` record. Each operation returns the new state. A thrown exception is
a `Result` error, or a status next to the state when the source has already
changed something before it throws.

Modules, leaves first:

- `Outcome`: `Option` and `Result`.
- `JsArray`: `Array.prototype.splice` index handling. A negative index counts
  back from the end, and both ends clamp. Also two reference operations,
  `InsertAt` and `RemoveAt`, that the list operations are checked against.
- `Values`: section data (JSON-like values that may hold an HTML element
  handle) and string helpers.
- `Sections`: the section record and id uniqueness.
- `Markup`: page settings and the HTML and configuration helpers.
- `Registry`: component descriptors and the deep merge behind `mix`.
- `Document`: the builder record and the list operations.
- `Restore`: `set`.
- `Serialize`: `toJSON` and `export`.
- `Plugins`: the queue, construction and `install`.
- `Scenarios`: worked examples.

## Model

| member | source | states |
|---|---|---|
| `Document.Add` | src/editor/vuse.js:53-59 | the new section is inserted where splice puts `position`, or at the end when no position is given; the id counter advances and nothing else changes |
| `Document.AddPlacement` | src/editor/vuse.js:53-59 | without a position `add` appends; with `p >= 0` the section lands at `min(p, length)`; the list grows by one and removing the new section gives back the old list |
| `Document.AddKeepsWellFormed` | src/editor/vuse.js:53-59 | a fresh id keeps the ids of all sections distinct |
| `Document.FindIndex` | src/editor/vuse.js:75 | `findIndex` returns the first position holding the id, or -1 exactly when no section has it |
| `Document.Find` | src/editor/vuse.js:66-68 | `find` returns nothing exactly when no section has the id; otherwise it returns the first section of the list that has it |
| `Document.FindUnique` | src/editor/vuse.js:66-68 | with distinct ids, `find` returns the one section holding the id |
| `Document.Remove` | src/editor/vuse.js:74-78 | a present id is spliced out at its first position; an absent id makes `splice(-1, 1)` drop the last section; `destroy` is logged for the argument in both cases |
| `Document.RemoveThenFindIsNone` | src/editor/vuse.js:74-78 | with distinct ids, `find` of the removed section's id afterwards finds nothing |
| `Document.RemoveDropsOne` | src/editor/vuse.js:74-78 | on a non-empty list `remove` drops exactly one section (the matching one, else the last), and the rest keep their order |
| `Document.RemoveKeepsWellFormed` | src/editor/vuse.js:74-78 | removal keeps section ids distinct |
| `Document.RemoveAbsentDropsLast` | src/editor/vuse.js:75-76 | removing a section that is not in a non-empty list still shortens it by its last section, and that section is not destroyed |
| `Document.RemoveById` | src/editor/vuse.js:70-78 | corrected removal: only a section with the id is taken out, and an absent id leaves the list as it was |
| `Document.RemoveByIdIdempotent` | src/editor/vuse.js:70-78 | the corrected removal leaves no section with the id and is idempotent on the list |
| `Document.Sort` | src/editor/vuse.js:85-89 | `sort` takes the section out at `oldIndex` and reinserts it where splice reads `newIndex` on the shortened list |
| `Document.SortMoves` | src/editor/vuse.js:85-89 | with both indices in range, `sort(i, j)` is a move: the length and the multiset of sections are kept, the old `i` section sits at `j`, the sections between shift by one and the rest stay put |
| `Document.SortKeepsWellFormed` | src/editor/vuse.js:85-89 | reordering keeps section ids distinct |
| `Document.Clear` | src/editor/vuse.js:105-110 | `clear` returns the old list, leaves the list empty and destroys every old section in order |
| `Document.ClearTwice` | src/editor/vuse.js:105-110 | a second `clear` returns nothing and destroys nothing more |
| `Document.Component` | src/editor/vuse.js:138-155 | the entry stored under the key (the name, or the definition's own name when only a plain object is passed) is the definition augmented with the builder's styler and mixin and `mixier.components` taken at registration time; other entries are untouched; it throws exactly when a lone constructor is passed (no definition is taken from it) or a plain definition meets no installed runtime |
| `Registry.MergeObject` | src/editor/vuse.js:129-131 | the merge keeps every key of either side; keys only on the old side keep their value; two nested objects under one key merge recursively; any other incoming value wins |
| `Registry.MergeObjectAgain` | src/editor/vuse.js:129-131 | merging the same object in twice gives the same result as merging it once |
| `Plugins.Mix` | src/editor/vuse.js:129-131 | `mix` deep-merges into the shared mixin object: the union of keys survives, old-only keys are kept, nested objects under a shared key merge recursively and any other incoming value wins |
| `Plugins.MixTwice` | src/editor/vuse.js:129-131 | `mix` with the same object twice equals one `mix` |
| `Plugins.Use` | src/editor/vuse.js:196-203 | a non-function leaves the queue unchanged; a function is appended with its options at the end; nothing else changes |
| `Plugins.RegisterComponent` | src/editor/vuse.js:118-123 | the static `component` queues exactly one component-installing plugin at the end of the queue |
| `Plugins.RunPlugin` | src/editor/vuse.js:120-122 | a plugin throws exactly when it is a component plugin whose registration throws or a foreign plugin that throws; a component plugin stores its definition under its key with the builder's current styler and mixin and leaves other keys alone; the styler, mixin and packaging plugins set their flag; nothing else of the builder changes |
| `Plugins.RunAll` | src/editor/vuse.js:161-163 | the run succeeds exactly when no queued plugin throws; a failure names the first throwing position; every queued component plugin's key ends up registered and only the registry and the plugin flags change |
| `Plugins.RunAllLastWins` | src/editor/vuse.js:161-163 | because plugins run in queue order, the entry under a key holds the definition of the last component plugin that registers that key |
| `Plugins.LoadedQueueAugments` | src/editor/vuse.js:505-506 | with the styler and mixin plugins queued first, as the module does at load time, every component registered while draining carries both |
| `Plugins.InstallPlugins` | src/editor/vuse.js:160-166 | draining succeeds exactly when no queued plugin throws, and then every plugin is invoked once in registration order and the queue is empty; a throwing plugin ends the loop before the reset: the queue stays as it was, the plugins up to the throwing one are invoked and none after it |
| `Plugins.DrainTwice` | src/editor/vuse.js:160-166 | draining a second time invokes nothing and changes nothing |
| `Plugins.Initial` | src/editor/vuse.js:12-47 | the constructor starts in editing mode with an empty registry; title, landing, intro, sections, themes and column prefixes come from the options over the `BUILDER_OPTIONS` defaults (`''`, `''`, `true`, empty, empty, the five breakpoint prefixes); the CSS path is the option's; the script path falls back to the default when unset or empty; distinct option ids give a well-formed builder |
| `Plugins.Install` | src/editor/vuse.js:168-187 | an installed process is left exactly as it was; otherwise the runtime is recorded first; construction succeeds exactly when no pending plugin throws, and then the builder is the constructor's except for what plugins register, every pending plugin runs once and the queue ends empty; when a plugin throws, the runtime stays recorded and the queue stays undrained |
| `Plugins.FailedInstallIsFinal` | src/editor/vuse.js:168-173 | after a plugin threw during the first `install`, every later `install` returns early: no builder is ever constructed and the queued plugins never run again |
| `Plugins.InstallAugments` | src/editor/vuse.js:168-173 | after the module's load-time queue, every component the constructor registers carries the styler directive and the mixin |
| `Plugins.InstallOnce` | src/editor/vuse.js:168-173 | a second `install` constructs nothing and runs no plugin |
| `Plugins.LatePluginDeferred` | src/editor/vuse.js:160-173 | a plugin registered after a successful `install` stays queued; it is not run by a repeated `install`; the next construction succeeds exactly when it does not throw, and then runs it exactly once |
| `Restore.ResolveEntry` | src/editor/vuse.js:213-236 | an entry resolves exactly when its name is registered and either the component has a schema or the name in its options is registered too; otherwise the first missing name is the error |
| `Restore.ResolveAll` | src/editor/vuse.js:209-239 | all entries resolve, in order and one-to-one, or the error is that of the first entry that does not |
| `Restore.ResolvedSectionsRebuilt` | src/editor/vuse.js:209-239 | the rebuilt list has one section per entry, in order, with fresh consecutive ids and the registry's name, group and header flag, the schema or its `$schema` fallback, and the saved data |
| `Restore.Set` | src/editor/vuse.js:205-241 | the title is replaced exactly when the snapshot has one; the call succeeds exactly when every entry resolves; then the list is the rebuilt one; otherwise the list (and the rest of the builder) is unchanged although the title has changed |
| `Restore.SetKeepsWellFormed` | src/editor/vuse.js:205-241 | restoring keeps section ids distinct |
| `Serialize.CloneItem` | src/editor/vuse.js:256-261 | a descriptor is readable exactly when `c.element` exists and is not null; the result has no live element at `c.element.element` and equals the input up to runtime-only node state |
| `Serialize.CloneItems` | src/editor/vuse.js:256-261 | the components array maps one-to-one and in order, and fails exactly when some descriptor is unreadable |
| `Serialize.TransformData` | src/editor/vuse.js:253-264 | the same keys come out; a key not starting with `components` keeps its value untouched; each components array keeps its length and its items lose their live handles and nothing else |
| `Serialize.ToJSON` | src/editor/vuse.js:246-267 | the snapshot's slug, title and settings are the builder's; there is one `{name, data}` per section in order with serialised data; the builder's own sections take the clones; it throws exactly when some components entry is unreadable |
| `Serialize.Export` | src/editor/vuse.js:487-501 | `pwa` and `zip` go to `download` with the assets, or to a warning when no packager is installed; `preview` opens the preview; every other method serialises |
| `Serialize.SetAfterExportRestores` | src/editor/vuse.js:205-267 | restoring an export rebuilds the same number of sections, in the same order, with the same names and the serialised data, and the registry's header flags, when every section's component is registered under its own name |
| `Markup.CookiesPreview` | src/editor/vuse.js:317-333 | the notice is empty exactly when the policy is disabled or has no document; otherwise it links to the document |
| `Markup.CustomCss` | src/editor/vuse.js:335-341 | the configured CSS, and `''` exactly when it is unset or empty |
| `Markup.JsScript` | src/editor/vuse.js:343-349 | the configured script, and `''` exactly when it is unset or empty |
| `Markup.BuildBodyStyles` | src/editor/vuse.js:355-371 | the loop over style keys builds the declarations of the entries in key order, followed by the overflow lock under full-page scroll |
| `Markup.DeclarationsInOrder` | src/editor/vuse.js:357-363 | each entry's declaration appears after those of the entries before it; an entry with an empty value adds nothing |
| `Markup.BodyStylesGating` | src/editor/vuse.js:355-371 | the body gets no inline style exactly when there is no styles object, or full-page scroll is off and every style value is empty |
| `Markup.GetScrollSetup` | src/editor/vuse.js:379-429 | style and setup are both empty exactly when full-page scroll is not `'yes'`; otherwise the style loads the scroll script and stylesheet from the origin and the setup carries the mobile breakpoint |
| `Markup.GtmSetup` | src/editor/vuse.js:431-452 | head and body snippets are empty exactly when the container id is empty; otherwise both contain it |
| `Markup.FirstTag` | src/editor/vuse.js:455 | `_.find` returns the first tag with the property, or nothing exactly when no tag has it |
| `Markup.GetManifest` | src/editor/vuse.js:454-467 | the manifest is named after the page, has one 64x64 favicon icon and start url `.`, and takes its description from the first `og:description` tag, or `''` when there is none |
| `Markup.OgMetaTags` | src/editor/vuse.js:474-480 | the loop emits one `<meta>` element per tag, in tag order |
| `Markup.MetaTagsInOrder` | src/editor/vuse.js:474-480 | each tag's element follows those of the tags before it, and rendering a concatenation of tag lists concatenates the renderings |
| `Scenarios.AddThenExportOrder` | src/editor/vuse.js:53-59 | on an empty list, `add(hero)` then `add(footer, 0)` gives footer then hero, and the JSON export lists them in that order |
| `Scenarios.MixExamples` | src/editor/vuse.js:129-131 | `mix({a:1})` then `mix({b:2})` gives `{a:1, b:2}`; `mix({a:1})` then `mix({a:2})` gives `{a:2}` |
| `Scenarios.PreviewGating` | src/editor/vuse.js:317-321 | with full-page scroll off and the cookie policy disabled, the scroll setup and the cookie notice are empty |

## Left out

- `preview`, `outputFragment` and `getVideoBg`: browser I/O (DOM cloning, `window.open`, `document.write`, `cleanDOM`). The helper outputs they concatenate are modelled.
- Vue runtime calls (`_Vue.extend`, `Vue.component`, `Vue.util.defineReactive`) and the registration of the builder and renderer components are foreign framework code. A registry entry is an opaque descriptor: the definition's options plus the styler, mixin and shared-components augmentation.
- `./section` is not part of this model. Section ids come from a counter in the builder that stands in for the section id generator. The constructor starts it past the ids of the option sections. `destroy()` is an entry in the builder's `destroyed` log.
- `./styler` and `./mixin` are not part of this model. Their plugins are taken to attach the builder's styler directive and mixin. A packaging plugin is taken to install `download`. Any other plugin's effect is not modelled; its invocation is still logged.
- `Plugins.RunPlugin`: a plugin other than the component, styler, mixin and packaging ones either throws or leaves the builder as it is. In the source it receives the builder and may change anything, so the claim that draining changes only the registry and the plugin flags (and with it that `install` builds the constructor's sections, title and assets) rests on that assumption.
- `Plugins.InstallPlugins`: the same assumption; a foreign plugin that edits the builder before or instead of throwing is not modelled.
- `Plugins.Install`: the same assumption for the constructed builder; `install`'s own `Vue.util.defineReactive` and `Vue.component` calls are not modelled, so they are taken not to throw.
- Options passed to plugins are only recorded, not interpreted. A plugin that calls `use` while the queue drains is not modelled.
- The `plugins` entry of the builder options is never read by the constructor and is not modelled.
- `Registry.MergeObject`: models lodash `merge` on scalars and nested objects only. Arrays (merged index by index by lodash), `undefined` values and functions are not modelled.
- `KebabCase` handles camelCase keys only. lodash's word splitting of other inputs is not modelled.
- `JSON.stringify` output is not modelled; `toJSON` and `getManifest` produce the structured value. Circular-structure detection is not modelled.
- `HTMLElement.cloneNode` is an abstract clone: the same markup, detached.
- The fixed text of the jQuery, GTM, cookie-notice and scroll snippets is abbreviated. Only presence, absence and the spliced-in parameters (policy URL, origin, container id, breakpoint) are modelled.
- `window.location.origin` is a parameter of `GetScrollSetup`.
- Settings values are strings. A numeric or boolean style value, and JavaScript truthiness on them, are not modelled.
- A helper called while `settings` (or `settings.cookiesPolicy`) is undefined throws in the source. This is not modelled: the helpers take a `Settings` value.
- `Document.Sort`: requires `0 <= oldIndex < |sections|`. Out of range, the source reads `undefined` and splices it into the list, which a list of sections cannot hold.
- `Serialize.ToJSON`: when it throws, the clones already written back into earlier descriptors are not modelled; the builder is returned unchanged.
- `Restore.Set`: when it throws, the ids used by sections constructed before the failing entry are not modelled; the counter is left unchanged.
- `Document.Component`: `typeof null === 'object'` and a missing `name` argument are not modelled. The key is a string or comes from a definition object.
- `Plugins.Initial`: `Object.assign` copying an explicitly `undefined` option over a default is not modelled. An option is either present or absent.
- Vue reactivity on `sections` and `isEditing` is not modelled.
- `backend/app/app.js` (Koa server wiring, logging, sessions, static serving, CORS) is I/O and library plumbing, and is not part of this model.

## Findings

| source | as written | input that shows it | evidently intended | confidence | as-written member | corrected member |
|---|---|---|---|---|---|---|
| src/editor/vuse.js:74-78 | `findIndex` gives -1 for an id not in the list, and `splice(-1, 1)` then removes the last section | sections with ids 1 and 2; `remove` a section with id 3: the section with id 2 is dropped and never destroyed | the list is unchanged when no section has the id (the method is documented as removing the section with that id) | high; not executed | `Document.RemoveAbsentDropsLast` | `Document.RemoveById` |
