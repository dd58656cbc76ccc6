# Cache-creation forms and dashboard colours of the data-grid web console

This project is a Dafny model of three pieces of the console's client-side logic.

- **Basic cache configuration form** (module `BasicCacheConfig`, file
  `basic_cache_config.dfy`). This is the wizard step that edits a cache's
  basic settings: topology, cluster mode, number of owners, encoding, statistics
  and expiration. The component is the class `BasicCacheConfigForm`:
  - the ten React state variables are one `Fields` record;
  - each handler is a method that changes that record;
  - `AfterRender` is the `useEffect` hook. It runs only when a field differs
    from its last run, and it replaces the wizard's shared `Configuration`
    with `Derive(prev, captured, fields, …)`.

  `Derive` is the pure state updater. It writes the `basic` section and the
  `valid` flag of the indexed and transactional feature entries, and keeps
  everything else. The owner-count editor clamps direct entry to [1, 10]. The
  `+`/`-` steppers change a truthy count by one and do not clamp.
- **Cache creation page** (module `CreateCachePage`, file `create_cache.dfy`).
  This is the class `CreateCacheForm`. It holds the name, the raw
  configuration, the chosen template, the panel and select flags, the two
  validity flags and the alert.
  - `ValidateConfig` is the check "non-empty, then JSON or XML".
  - `CreateCache` decides whether a creation request goes out and which one,
    and returns it as a `Request` value.
  - The service's answer comes back as a separate `OnResponse` event.
  - The gate in `CreateCache` reads `validName`/`validConfig` as they were
    before the click. React does not apply state updates within the running
    handler, so the flags the same click computes only take effect on the next
    render.
- **Dashboard colours** (module `DisplayUtils`, file `display_utils.dfy`). The
  three lookups from health, cache type and component status to a PatternFly
  chart colour token, each with the default `chart_color_black_100`. The
  singleton that holds them has no fields, so each lookup is a function and
  gives equal outputs for equal inputs by construction.

Module `Js` (file `js.dfy`) holds the JavaScript values these need:
- `Num`, an integer or NaN, where every comparison with NaN is false;
- `MaybeNum`, a `number | undefined`, with its truthiness;
- `Option`, for `T | null`;
- `String.prototype.trim` over the ECMAScript whitespace and line-terminator
  characters.

Foreign code becomes parameters:
- the JSON and XML parsers are the predicates `isJson`/`isXml` given to the
  page's constructor;
- the two feature validators are `indexedOk`/`transactionalOk`, given to the
  form's constructor;
- `parseInt`/`Number` are applied by the caller, and the handlers receive the
  resulting `Num`.

Behaviour of the code that the model makes explicit:
- The `+`/`-` owner handlers do not clamp; only direct entry does. The
  handlers rely on the input widget's own min/max, and `PlusAtMaximum` shows
  the handler alone going from 10 to 11.
- A whitespace-only configuration passes the length test at
  `src/app/Caches/CreateCache.tsx:89`, which looks at the untrimmed text, and
  is accepted iff a parser accepts the empty string
  (`BlankConfigDependsOnParsers`).
- The first click on a fresh page sends a request even with an empty name and
  an empty configuration (see Findings).

## Model

| member | source | states |
|---|---|---|
| `DisplayUtils.HealthColor` | src/services/displayUtils.ts:18-34 | HEALTHY, HEALTHY_REBALANCING and DEGRADED map to green_300, orange_300 and red_300, each colour for exactly that key; every other key, including other casings, gives the default black_100 |
| `DisplayUtils.CacheTypeColor` | src/services/displayUtils.ts:36-58 | Distributed, Replicated, Local, Invalidated and Scattered map to blue_200, purple_200, cyan_300, gold_300 and black_300, each colour for exactly that key; every other key gives black_100 |
| `DisplayUtils.StatusColor` | src/services/displayUtils.ts:60-85 | STOPPING, RUNNING, INSTANTIATED, INITIALIZING, FAILED and TERMINATED map to black_400, green_300, cyan_400, orange_300, red_400 and black_500, each colour for exactly that key; every other key gives black_100 |
| `DisplayUtils.CacheTypeColorsDistinct` | src/services/displayUtils.ts:36-58 | the five listed cache types get pairwise-distinct colours, none of them the default |
| `DisplayUtils.StatusColorsDistinct` | src/services/displayUtils.ts:60-85 | the six listed component states get pairwise-distinct colours, none of them the default |
| `DisplayUtils.SharedAndFallbackColors` | src/services/displayUtils.ts:17-85 | HEALTHY and RUNNING share green_300; HEALTHY_REBALANCING and INITIALIZING share orange_300; matching is case-sensitive, so lower-case keys fall to the default |
| `Js.Trim` | src/app/Caches/CreateCache.tsx:88 | `trim()` never lengthens its input; what it returns is characterized by `Js.TrimIsInnerSlice` |
| `Js.TrimStartSpec` | src/app/Caches/CreateCache.tsx:112 | removing leading whitespace leaves the suffix of the input that starts at its first non-whitespace character, and only whitespace precedes it |
| `Js.TrimEndSpec` | src/app/Caches/CreateCache.tsx:112 | removing trailing whitespace leaves the prefix of the input that ends at its last non-whitespace character, and only whitespace follows it |
| `Js.TrimIsInnerSlice` | src/app/Caches/CreateCache.tsx:112 | the trimmed name is a contiguous slice of the input that neither starts nor ends with whitespace, and only whitespace lies before and after it |
| `Js.TrimEmptyIffBlank` | src/app/Caches/CreateCache.tsx:112-113 | the trimmed name is empty exactly when the input is whitespace only |
| `Js.TrimIdempotent` | src/app/Caches/CreateCache.tsx:112 | trimming an already trimmed name changes nothing |
| `BasicCacheConfig.FieldsOf` | src/app/Caches/Create/BasicCacheConfigConfigurator.tsx:35-44 | on mount the owner count and both expiration values are read from the configuration's `basic` section |
| `BasicCacheConfig.OwnersFromEntry` | src/app/Caches/Create/BasicCacheConfigConfigurator.tsx:111-114 | a directly entered owner count is always in [1, 10]; NaN gives 1, values in range are kept, values below give 1 and above give 10 |
| `BasicCacheConfig.Stepped` | src/app/Caches/Create/BasicCacheConfigConfigurator.tsx:99-109 | a stepper click changes a truthy count by exactly its delta, unclamped, and leaves 0 or undefined unchanged |
| `BasicCacheConfig.ValidateLifeSpan` | src/app/Caches/Create/BasicCacheConfigConfigurator.tsx:308-310 | the lifespan input shows `default` exactly when its value is at least -1, and `error` otherwise, NaN included |
| `BasicCacheConfig.ValidateMaxIdle` | src/app/Caches/Create/BasicCacheConfigConfigurator.tsx:312-314 | the max-idle input shows `default` exactly when its value is at least -1, and `error` otherwise, NaN included |
| `BasicCacheConfig.BasicOf` | src/app/Caches/Create/BasicCacheConfigConfigurator.tsx:56-68 | the written `basic` section has an owner count only on the Distributed topology, and then it is the selected one; `valid` holds iff lifespan and max idle are both at least -1; every other field is copied, so mounting on it restores the fields |
| `BasicCacheConfig.Derive` | src/app/Caches/Create/BasicCacheConfigConfigurator.tsx:53-80 | the updater replaces `basic` and only the `valid` flag of the indexed and transactional entries, computed by the validators from the render-time configuration; feature settings, other features and other sections are unchanged |
| `BasicCacheConfig.DeriveValidMatchesValidators` | src/app/Caches/Create/BasicCacheConfigConfigurator.tsx:308-314 | the derived `valid` flag holds iff both inline validators show `default` |
| `BasicCacheConfig.DeriveValidIgnoresExpiration` | src/app/Caches/Create/BasicCacheConfigConfigurator.tsx:67 | `valid` does not depend on the expiration switch; a NaN lifespan or max idle makes it false |
| `BasicCacheConfig.ValidatorsOnIntegers` | src/app/Caches/Create/BasicCacheConfigConfigurator.tsx:308-314 | on an integer value each validator reports `error` exactly below -1; for each of the two validators a NaN value is an error |
| `BasicCacheConfig.DeriveIdempotent` | src/app/Caches/Create/BasicCacheConfigConfigurator.tsx:53-80 | running the updater a second time with the same fields and render-time configuration changes nothing |
| `BasicCacheConfig.RemountRestoresFields` | src/app/Caches/Create/BasicCacheConfigConfigurator.tsx:35-68 | remounting on the section the effect wrote restores every field on Distributed, and all but the owner count (then undefined) otherwise |
| `BasicCacheConfig.EncodingTypeOptions` | src/app/Caches/Create/BasicCacheConfigConfigurator.tsx:217-224 | one child per encoding, in order; the child is undefined exactly for Empty and Unknown, and otherwise carries that encoding |
| `BasicCacheConfig.Rendered` | src/app/Caches/Create/BasicCacheConfigConfigurator.tsx:217-224 | the rendered options are exactly the values of the defined children (an encoding is rendered iff some child carries it) |
| `BasicCacheConfig.RenderedAppend` | src/app/Caches/Create/BasicCacheConfigConfigurator.tsx:217-224 | rendering keeps the children's order: the options of two consecutive runs of children are those of the first followed by those of the second |
| `BasicCacheConfig.OfferedEncodings` | src/app/Caches/Create/BasicCacheConfigConfigurator.tsx:217-224 | the encodings offered are exactly the encoding values other than Empty and Unknown |
| `BasicCacheConfig.BasicCacheConfigForm.constructor` | src/app/Caches/Create/BasicCacheConfigConfigurator.tsx:35-44 | the form's fields start from the shared configuration's `basic` section, before any effect has run |
| `BasicCacheConfig.BasicCacheConfigForm.OnMinus` | src/app/Caches/Create/BasicCacheConfigConfigurator.tsx:99-103 | decrements a truthy owner count by one, unclamped; nothing else changes |
| `BasicCacheConfig.BasicCacheConfigForm.OnPlus` | src/app/Caches/Create/BasicCacheConfigConfigurator.tsx:105-109 | increments a truthy owner count by one, unclamped; nothing else changes |
| `BasicCacheConfig.BasicCacheConfigForm.OnOwnersChange` | src/app/Caches/Create/BasicCacheConfigConfigurator.tsx:111-114 | stores the clamped direct entry as the owner count; nothing else changes |
| `BasicCacheConfig.BasicCacheConfigForm.OnChooseDistributed` | src/app/Caches/Create/BasicCacheConfigConfigurator.tsx:134-137 | sets topology to Distributed and the owner count to 1; nothing else changes |
| `BasicCacheConfig.BasicCacheConfigForm.OnChooseReplicated` | src/app/Caches/Create/BasicCacheConfigConfigurator.tsx:144 | sets topology to Replicated and changes nothing else |
| `BasicCacheConfig.BasicCacheConfigForm.OnChooseSync` | src/app/Caches/Create/BasicCacheConfigConfigurator.tsx:170 | sets the mode to SYNC and changes nothing else |
| `BasicCacheConfig.BasicCacheConfigForm.OnChooseAsync` | src/app/Caches/Create/BasicCacheConfigConfigurator.tsx:177 | sets the mode to ASYNC and changes nothing else |
| `BasicCacheConfig.BasicCacheConfigForm.OnSelectEncoding` | src/app/Caches/Create/BasicCacheConfigConfigurator.tsx:258-261 | stores the chosen encoding and changes nothing else |
| `BasicCacheConfig.BasicCacheConfigForm.OnToggleStatistics` | src/app/Caches/Create/BasicCacheConfigConfigurator.tsx:233 | flips the statistics switch and changes nothing else |
| `BasicCacheConfig.BasicCacheConfigForm.OnToggleExpiration` | src/app/Caches/Create/BasicCacheConfigConfigurator.tsx:290 | flips the expiration switch and changes nothing else |
| `BasicCacheConfig.BasicCacheConfigForm.OnLifeSpanChange` | src/app/Caches/Create/BasicCacheConfigConfigurator.tsx:339 | stores the parsed lifespan, NaN included, and changes nothing else |
| `BasicCacheConfig.BasicCacheConfigForm.OnSelectLifeSpanUnit` | src/app/Caches/Create/BasicCacheConfigConfigurator.tsx:346-349 | stores the chosen lifespan unit and changes nothing else |
| `BasicCacheConfig.BasicCacheConfigForm.OnMaxIdleChange` | src/app/Caches/Create/BasicCacheConfigConfigurator.tsx:405 | stores the parsed max idle, NaN included, and changes nothing else |
| `BasicCacheConfig.BasicCacheConfigForm.OnSelectMaxIdleUnit` | src/app/Caches/Create/BasicCacheConfigConfigurator.tsx:412-415 | stores the chosen max-idle unit and changes nothing else |
| `BasicCacheConfig.BasicCacheConfigForm.AfterRender` | src/app/Caches/Create/BasicCacheConfigConfigurator.tsx:51-93 | the effect re-derives the configuration only when a dependency changed since its last run (always on the first render); afterwards the `basic` section reflects the current fields |
| `BasicCacheConfig.PlusAtMaximum` | src/app/Caches/Create/BasicCacheConfigConfigurator.tsx:105-109 | the plus handler at 10 owners stores 11: the handler itself does not clamp |
| `BasicCacheConfig.SteppersAfterReplicated` | src/app/Caches/Create/BasicCacheConfigConfigurator.tsx:99-137 | with no owner count, both steppers do nothing; choosing Distributed sets 1 and then plus gives 2 |
| `CreateCachePage.AlertPanel` | src/app/Caches/CreateCache.tsx:141-148 | the alert shows only when displayed, in the success variant iff the answer succeeded; its title is the standard text when the message is empty and the message otherwise, never empty |
| `CreateCachePage.BlankConfigDependsOnParsers` | src/app/Caches/CreateCache.tsx:87-91 | a non-empty whitespace-only configuration passes the length test, and is accepted iff a parser accepts the empty string |
| `CreateCachePage.CreateCacheForm.constructor` | src/app/Caches/CreateCache.tsx:27-36 | a fresh page has empty name and configuration, no template, both validity flags true, panels closed and the alert hidden |
| `CreateCachePage.CreateCacheForm.OnNameChange` | src/app/Caches/CreateCache.tsx:62-64 | stores the typed name and nothing else |
| `CreateCachePage.CreateCacheForm.OnConfigChange` | src/app/Caches/CreateCache.tsx:66-68 | stores the typed configuration and nothing else |
| `CreateCachePage.CreateCacheForm.OnToggleSelect` | src/app/Caches/CreateCache.tsx:70-72 | opens or closes the template dropdown and changes nothing else |
| `CreateCachePage.CreateCacheForm.OnToggleConfigPanel` | src/app/Caches/CreateCache.tsx:55-60 | flips the panel, disables the template select exactly while the panel is open, and clears the chosen template |
| `CreateCachePage.CreateCacheForm.ClearSelection` | src/app/Caches/CreateCache.tsx:74-77 | clears the chosen template and closes the dropdown; the select stays disabled exactly while the raw panel is open, with no template chosen then |
| `CreateCachePage.CreateCacheForm.OnSelect` | src/app/Caches/CreateCache.tsx:79-85 | only reachable while the select is enabled (`isDisabled` at line 189); always closes the dropdown; a placeholder clears the choice, any other selection becomes the chosen template |
| `CreateCachePage.CreateCacheForm.ValidateConfig` | src/app/Caches/CreateCache.tsx:87-109 | false when the untrimmed text is empty; otherwise true iff the trimmed text parses as JSON or as XML |
| `CreateCachePage.CreateCacheForm.CreateCache` | src/app/Caches/CreateCache.tsx:111-135 | `validName` becomes "trimmed name non-empty" and `validConfig` becomes "template chosen or configuration accepted"; a request is sent iff both flags were true before the click; it goes by template when one is chosen, otherwise with the raw text, which is always the case while the raw panel is open; the name is trimmed and the text is not |
| `CreateCachePage.CreateCacheForm.CreateCacheIntended` | src/app/Caches/CreateCache.tsx:111-135 | as `CreateCache`, but a request is sent iff the flags just computed are true, so every request carries a non-empty trimmed name |
| `CreateCachePage.CreateCacheForm.OnResponse` | src/app/Caches/CreateCache.tsx:128-134 | an answer replaces the alert wholesale with its message and success, displayed |
| `CreateCachePage.CreateCacheForm.HideCreation` | src/app/Caches/CreateCache.tsx:137-139 | closing resets the alert to empty message, not displayed, not successful, so nothing is rendered |
| `CreateCachePage.FirstClickSendsEmpty` | src/app/Caches/CreateCache.tsx:124-126 | on a fresh page the first click sends a raw-configuration request with an empty name and an empty configuration, and the same click sets both validity flags to false |
| `CreateCachePage.ClicksAfterRejection` | src/app/Caches/CreateCache.tsx:111-126 | once a click has set a validity flag to false, the next click with a valid name and a chosen template sends nothing, and the click after it sends by that template |
| `CreateCachePage.FixedInputNeedsTwoClicks` | src/app/Caches/CreateCache.tsx:124-126 | after that click marks both fields invalid, a click with a valid name and template sends nothing; the following click sends it |
| `CreateCachePage.FirstClickIntended` | src/app/Caches/CreateCache.tsx:111-126 | with the gate on the freshly computed flags, the first click on a fresh page sends nothing |

## Left out

- Rendering is not modelled: JSX, PatternFly components, i18n strings and layout. This includes the owner input being shown and enabled only on the Distributed topology, and its displayed value 1 otherwise.
- The open/closed flags of the encoding, lifespan-unit and max-idle-unit selects are not modelled; they are presentational.
- The widget's own `min`/`max` limits on the owner input are not modelled, because they belong to the PatternFly component. The handlers are modelled alone.
- `CacheType`, `EncodingType` and `TimeUnits` are not defined in the modelled files, and neither is `CacheMode`. Topology is `Distributed | Replicated | OtherCacheType(name)`. Encoding is `Empty | Unknown | MediaType(name)`. Units are strings. The mode is closed to `Sync | Async`, while the form reads `configuration.basic.mode as CacheMode` (`src/app/Caches/Create/BasicCacheConfigConfigurator.tsx:36`), a cast that does not check the value. `unitOptions` is a plain listing of the units and is not modelled.
- `validateIndexedFeature` and `validateTransactionalFeature` are not defined in the modelled files. They are function parameters.
- `JSON.parse` and `DOMParser` are foreign parsers. They are the predicates `isJson`/`isXml`.
- Numbers are modelled as integers or NaN. Fractional entries through `Number(...)` and `parseInt` truncation are floating-point behaviour and are not modelled; the handlers receive the already parsed value. Counts are unbounded integers; JavaScript's doubles are exact at these sizes.
- The template-list fetch (`getCacheManager` on mount, filling the dropdown's options) is not modelled, because it is network I/O.
- The creation calls are not performed. They appear as the returned `Request`, and their answer as the `OnResponse` event; promise timing and ordering of answers are not modelled.
- React's scheduling and batching are not modelled. What is modelled: state set in a handler is not visible to the rest of that handler, and the effect runs after a render whose dependencies changed. In `AfterRender`, the updater's `prev` and the render-time configuration are the same object.
- `Object.is` distinguishing `0` from `-0` in the effect's dependency check is not modelled; only integers are represented.
- The Back link is not modelled; it is navigation only.

## Findings

| source | as written | input that shows it | evidently intended | confidence | as-written member | corrected member |
|---|---|---|---|---|---|---|
| src/app/Caches/CreateCache.tsx:124-126 | the submit gate tests `validName`/`validConfig` from before the click, while the same click has just recomputed them | a fresh page (both flags initially true) with empty name, no template and empty configuration: the first click sends `createCacheWithConfiguration("", "")`; after fixing the input, one more click is needed | send only when the name and configuration validated by this click are valid: lines 113-122 compute the flags from the current input, and lines 170 and 213 show them as the inputs' `isValid` | high; not executed | `CreateCachePage.FirstClickSendsEmpty` | `CreateCachePage.CreateCacheForm.CreateCacheIntended` |
