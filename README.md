# postcss-filter-plugins, modelled in Dafny

postcss-filter-plugins is a PostCSS plugin that removes duplicate plugins
from the processor it runs in. When it runs, it walks
`result.processor.plugins` once, from the front. It skips:

- plugins whose name is in `exclude`;
- the filter instance itself, recognised by its `_id`;
- any other instance of the filter.

For every other plugin, when the configured `direction` is active at that
point, it looks the plugin's name up in a list of names already seen:

- `both` is active everywhere;
- `forward` only after the filter's own position;
- `backward` only before it.

A name already in the list makes the filter splice that plugin out of the
live list. It also reports `template(plugin)` through `result.warn`, unless
`silent` is set. A new name is recorded instead. The cursor only advances
past a plugin that stays, and the loop re-reads the list's length on every
pass.

The project has two files:

- `filter_plugins.dfy` (module `FilterPlugins`) holds the model:
  - the options and the direction flags;
  - a specification of one pass of the loop (`Examine`);
  - the scan state after a prefix of the list (`Fold`);
  - the keep/remove mask (`Decisions`);
  - the surviving and removed plugins (`Filtered`, `Removed`) and the warnings (`Emitted`);
  - the imperative pass: `Plugin`, with its loop body `Pass` and the closure `Detect`. It works over a `Processor` whose `plugins` it splices and a `Result` whose `warnings` it appends to. It is proved to leave exactly `Filtered` in the list and to append exactly `Emitted`;
  - lemmas that state what the pass promises in each direction.
- `scenarios.dfy` (module `FilterPluginsScenarios`) replays the repository's test scenarios on the model.

A plugin is seen through the two properties the filter reads:

- its `postcssPlugin` name, which may be `undefined` (`None`);
- its `_id`.

## Model

| member | source | states |
|---|---|---|
| FilterPlugins.Filter.AsStep | src/index.js:6 | a filter instance appears in the plugin list under the name `postcss-filter-plugins` that the `postcss.plugin` wrapper registers (line 6), and with its own `_id` (line 77) |
| FilterPlugins.DefaultOptions | src/index.js:6-11 | without options the filter is not silent, excludes nothing, works in both directions and uses the default template (`DefaultTemplate`) for every plugin |
| FilterPlugins.FlagsOf | src/index.js:13-25 | `both`, `prev` and `next` are set exactly for `'both'`, `'backward'` and `'forward'`; at most one is set; any other value sets none |
| FilterPlugins.Examine | src/index.js:47-73 | one pass never removes an excluded plugin, the filter itself or another filter; it sets the passed-self flag exactly on the filter's own, non-excluded step; when detection runs against the one list the direction uses, the plugin is removed iff its name is already there, and a kept name is appended; otherwise the plugin stays and that list is unchanged |
| FilterPlugins.Decisions | src/index.js:47-74 | there is one keep/remove decision per plugin of the original list |
| FilterPlugins.Select | src/index.js:40 | the plugins kept (or removed) are never more than the original list |
| FilterPlugins.Positions | src/index.js:40 | the positions marked keep (or remove) are in range, carry that mark, strictly increase, and include every position with that mark |
| FilterPlugins.Warnings | src/index.js:37-39 | a silent filter warns about nothing; otherwise there is exactly one warning per removed plugin, `template(plugin)`, in removal order |
| FilterPlugins.Result.Warn | src/index.js:38 | `result.warn` appends its text to the result's warnings |
| FilterPlugins.Detect | src/index.js:34-45 | a name already in the list: the plugin at the cursor is spliced out, the cursor stays, the list of names is unchanged, and `template(plugin)` is warned unless silent; a new name: it is appended to the list, the cursor advances, and neither the plugins nor the warnings change |
| FilterPlugins.Pass | src/index.js:48-73 | one pass of the loop body changes the cursor, the plugin list, the warnings and the four scan variables exactly as `Examine` decides for the plugin at the cursor |
| FilterPlugins.Plugin | src/index.js:27-75 | the pass terminates; it leaves exactly the surviving plugins, in their original order, in `result.processor.plugins`; it appends exactly the warnings for the removed plugins |
| FilterPlugins.Advance | src/index.js:47-74 | every pass keeps the loop invariant: the list is the survivors of the prefix already visited followed by the rest, the cursor is the number of survivors, and the scan variables are the state after that prefix |
| FilterPlugins.WarningsAppend | src/index.js:37-39 | the warnings for two runs of removals are the warnings for each run, concatenated |
| FilterPlugins.SelectAt | src/index.js:40 | the survivors are the original plugins at strictly increasing positions, namely exactly the positions marked keep; splicing deletes and never reorders or inserts |
| FilterPlugins.SelectPartition | src/index.js:40 | the survivors and the removed plugins together are the original list, counted with multiplicity |
| FilterPlugins.DecisionAt | src/index.js:47-73 | whether plugin `i` stays is what one pass decides in the state left by the plugins before it; removals do not change which plugin is visited next |
| FilterPlugins.PassedSelf | src/index.js:49-56 | the `filter` flag is set exactly when the filter's own step has been visited and was not excluded |
| FilterPlugins.MarkedAt | src/index.js:53-56 | at plugin `i`, the `filter` flag says whether the filter's own non-excluded step comes before `i` |
| FilterPlugins.SeenNames | src/index.js:34-45 | the list of names the direction uses holds exactly the names of the plugins that reached detection so far |
| FilterPlugins.DuplicateIff | src/index.js:36-44 | a plugin is removed iff it reaches detection and an earlier plugin that also reached detection has the same name |
| FilterPlugins.CheckedPrefix | src/index.js:47-73 | whether a plugin reaches detection depends only on the plugins before it |
| FilterPlugins.ProtectedSurvive | src/index.js:49-60 | excluded plugins, the filter itself and other filter instances are always kept and stay in the final list |
| FilterPlugins.BothKeepsFirstOccurrence | src/index.js:61-64 | with `both`, an unprotected plugin is removed iff an earlier unprotected plugin has the same name, so the first occurrence of each name is kept |
| FilterPlugins.BothNoDuplicatesRemain | src/index.js:61-64 | with `both`, no two unprotected survivors share a name |
| FilterPlugins.BothKeepsEveryName | src/index.js:61-64 | with `both`, every name of the original list is still present after filtering |
| FilterPlugins.ForwardScope | src/index.js:65-68 | with `forward`, nothing up to and including the filter is removed; after it, an unprotected plugin is removed iff an earlier unprotected plugin after the filter has the same name |
| FilterPlugins.BackwardScope | src/index.js:69-72 | with `backward`, nothing from the filter onwards is removed; before it, an unprotected plugin is removed iff an earlier unprotected plugin has the same name |
| FilterPlugins.KeepAll | src/index.js:47-74 | when every plugin is kept, the list is unchanged and no warning is emitted |
| FilterPlugins.AllMarked | src/index.js:40 | an all-keep mask selects the whole list and removes nothing |
| FilterPlugins.OtherDirectionNoop | src/index.js:15-25 | an unrecognised `direction` leaves the list unchanged and emits no warning |
| FilterPlugins.OnlyFiltersNoop | src/index.js:57-60 | a list made only of filter instances is left unchanged, with no warning, whatever the options |
| FilterPlugins.WarningPerRemoval | src/index.js:37-40 | a silent filter emits nothing; otherwise there are as many warnings as removed plugins (the original length minus the survivors), each `template` of its plugin, in order |
| FilterPlugins.SilentRemovesTheSame | src/index.js:37-40 | `silent` and `template` change the warnings only: the scan, the decisions, the survivors and the removed plugins are the same whatever their values |
| FilterPlugins.DefaultTemplateText | src/index.js:7 | the default template `DefaultTemplate` renders the default warning: it is `Found duplicate plugin: ` followed by the name; it tells two named plugins apart; an unnamed plugin is reported as `undefined` |
| FilterPluginsScenarios.DuplicateAfterFilter | src/__tests__/index.js:52-60 | `[fontWeight, filter, fontWeight]` with default options keeps the first two, removes the last copy and warns once with `Found duplicate plugin: postcss-minify-font-weight`; with `silent` the same plugins stay and no warning is emitted |
| FilterPluginsScenarios.CustomTemplate | src/__tests__/index.js:62-71 | the same list with a custom template gives the single warning `Uh-oh: postcss-minify-font-weight` |
| FilterPluginsScenarios.ExcludedName | src/__tests__/index.js:82-93 | excluding `postcss-minify-font-weight` keeps the whole list and warns about nothing |
| FilterPluginsScenarios.ForwardFromFilter | src/__tests__/index.js:95-107 | with `forward`, `[fontWeight, filter, fontWeight, fontWeight]` loses only the last copy: one warning |
| FilterPluginsScenarios.BackwardFromFilter | src/__tests__/index.js:109-121 | with `backward`, `[fontWeight, fontWeight, filter, fontWeight]` loses only the second copy: one warning |
| FilterPluginsScenarios.FourFilters | src/__tests__/index.js:123-129 | four filter instances, with any options and any ids: none of them removes anything or warns |
| FilterPluginsScenarios.AnonymousPlugins | src/__tests__/index.js:46-48 | two unnamed plugins and two copies of a named one around a filter: the second unnamed plugin and the second copy are removed, so three plugins remain, with warnings `Found duplicate plugin: undefined` and the one for the named plugin |
| FilterPluginsScenarios.DefaultWarnings | src/index.js:7 | the default warnings for an unnamed plugin and for `postcss-minify-font-weight`, spelled out |

Unnamed plugins:

- An unnamed plugin has `postcssPlugin === undefined`. `list.indexOf(undefined)` finds an earlier `undefined` (src/index.js:36), so the code records unnamed plugins under the name `undefined` and removes the second one like any duplicate.
- The test 'should handle processors without the postcssPlugin property' (src/__tests__/index.js:33-49) expects four plugins to remain. The code as written leaves three, as `AnonymousPlugins` proves. The model follows the code.

## Left out

- The `postcss.plugin` wrapper is not part of this model, and neither is the `postcssVersion` it adds (src/__tests__/index.js:133). The name it registers on each instance (src/index.js:6) is modelled as the name of `Filter.AsStep`. The model starts from the closure the wrapper returns.
- `uniqid` is not modelled. Each filter's identifier is a parameter (`Filter.id`), so two filters with equal ids are possible inputs. `FourFilters` is proved for any ids.
- The `css` argument of the plugin is unused by the source, so it is not modelled.
- Running the host pipeline is not modelled: the CSS each plugin produces, the `counter` example (src/__tests__/index.js:15-31) and `result.css` (line 47) are out of scope. Only the list the filter leaves and the warnings it emits are modelled.
- A plugin is modelled as its name and `_id` only. Object identity and the other properties of a plugin are not modelled. The splice is by position, so identity does not affect it.
- JavaScript values other than strings or `undefined` in `postcssPlugin`, `exclude` or `direction` are not modelled. An unrecognised direction string is `Direction.Other`.
- `result.warn` is modelled as appending text to `Result.warnings`. PostCSS's `Warning` objects, with their plugin and node fields, are not modelled.
- `template` is modelled as a total function from plugin to text. A template that throws or returns a non-string is not modelled.
