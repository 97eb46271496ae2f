# LCARS theme engine, modelled in Dafny

This project models the theme engine of an LCARS (Star Trek computer
interface) React component library, `src/providers/theme/`, and proves
properties of it. The engine has these parts:

- **the LCARS palette** (`lcarsColors`): 56 named colours.
- **the semantic colour schema** (`SemanticColors`): eight required
  categories (`frame`, `action`, `navigation`, `status`, `content`,
  `background`, `data`, `lcars`) with fixed slots, plus two optional legacy
  categories (`interface`, `system`).
- **four built-in theme variants** (voyager, tng, ds9, discovery): each
  fills the schema from the palette. A registry holds them, and a lookup
  falls back to voyager.
- **the default theme**: the voyager mapping, with the legacy colours `main`,
  `alt1` and `alt2` bound to frame colours and a flattened `color` accessor.
- **`deepMerge` and `ThemeProvider`**: lay a partial custom theme over the
  base theme.
- **the resolvers**: `getSemanticColor`, `useSemanticColor` and
  `useSemanticColors` walk a dotted path such as `frame.primary` through the
  semantic mapping. On a miss they fall back to the primary frame colour.
  The `isSemanticColorPath` guard accepts the listed paths.
- **the migration layer**: the table from deprecated, appearance-based
  colour names to semantic paths. It covers the warn-once deprecation log,
  `migrateColorProp`, `migrateColorAtRuntime`, `getSemanticSuggestions` and
  `isDeprecatedColor`.

Modules, in dependency order:

| file | module | contents |
|---|---|---|
| `strings.dfy` | `Strings` | dots, `split('.')`, `join`, `startsWith`, `category.slot` |
| `js_runtime.dfy` | `JsRuntime` | JavaScript values, truthiness, property reads, object spread, the path walk |
| `theme_types.dfy` | `ThemeTypes` | palette names, the schema, `Theme`, variant tags |
| `theme_utils.dfy` | `ThemeUtils` | the palette and `getThemeColor` |
| `theme_variants.dfy` | `Variants` | the four variant tables, the registry, `getThemeVariant`, `createCustomVariant` |
| `default_theme.dfy` | `DefaultTheme` | `defaultTheme`, built by `Compose` from any conforming mapping and palette |
| `theme_merge.dfy` | `ThemeMerge` | `deepMerge` and the theme `ThemeProvider` passes down |
| `theme_migration.dfy` | `Migration` | the migration table, the deprecation log (a class) and the migration helpers |
| `use_semantic_color.dfy` | `SemanticResolver` | the path guard and the resolvers |

Modelling conventions:

- Colour names, categories, slots and paths are strings, as in the source.
- Themes are typed values, except where the source treats them as untyped
  JavaScript objects (`deepMerge`, the path walks). There they are a
  `Value` datatype with JavaScript truthiness.
- Reading a property of `undefined` or `null` throws a `TypeError` in
  JavaScript. This is modelled as an `Outcome` that can be
  `TypeErrorThrown`.
- `console.warn` and `console.error` become `Notice` values. Functions
  return them alongside their result (`Logged`), and the deprecation log
  keeps them.
- The module-level `deprecationWarnings` set is the `warned` field of the
  `DeprecationLog` class.
- The loops of the source are methods with loop invariants, each proved
  equal to a specification function:
  - `DeepMerge` (`deepMerge`);
  - `WalkPath` (the walks in the resolvers and in `migrateColorAtRuntime`);
  - `UseSemanticColors` (`useSemanticColors`).

Behaviour of the code that the model keeps, which a reader may not expect:

- **Palette aliases.** Palette values are not unique: `naples`/`honey`,
  `mango`/`almond`, `gold`/`goldfinch` and `skyBlue`/`wisteria` share a
  colour (`PaletteAliases`).
- **Path length.** The resolvers' path walk is not limited to two
  segments. A path of any length is walked until a segment is missing or
  falsy.
- **Background colours.** The `background` slots of the variants are
  literals such as `rgba(0, 0, 0, 0.8)`, not palette colours (`VoyagerOverlay`
  and the like).
- **The fallback can throw.** The resolvers' fallback
  `theme.colors.semantic.frame.primary` throws when the mapping has no
  `frame` category, for example with an unchecked custom variant
  (`LookupThrowsWithoutFrame`, `EmptyMappingThrows`).
- **No theme composition helper or variant controller.** The core has
  neither. The default theme is fixed to voyager, and `Compose` models how
  it is built.
- **`migrateColorProp`'s result.** It returns `context.color` for a bare
  name, such as `frame.main`, which is not an accepted path
  (`MainPropNotAPath`).
- **`action.pressed`.** The migration table suggests `action.pressed` for
  `paleBlue`, but `pressed` is only a slot of the legacy `interface`
  category (`PressedIsNotAPath`).
- **Legacy paths.** The guard rejects `interface.*` and `system.*`, yet the
  resolvers still read them from a mapping that has them
  (`LegacyPathsStillResolve`).
- **Warning keys.** The warn-once key `colour-component` is ambiguous for
  names that contain `-`. Two different warnings can then share a key, and
  only the first is written (`WarningKeysCollide`).

## Model

| member | source | states |
|---|---|---|
| Strings.Split | src/providers/theme/useSemanticColor.ts:100 | `split('.')` gives at least one part, no part holds a dot, and the parts joined with dots give back the string |
| Strings.SplitJoin | src/providers/theme/useSemanticColor.ts:100 | splitting dot-free parts joined with dots gives back the parts |
| Strings.SplitQualified | src/providers/theme/theme.migration.ts:125 | `split('.')` of `category.slot` with dot-free parts is `[category, slot]` |
| Strings.HasDotIffSplits | src/providers/theme/useSemanticColor.ts:99-100 | a string contains a dot iff `split('.')` gives more than one part |
| Strings.Qualify | src/providers/theme/theme.migration.ts:125 | a path built as `${category}.${slot}` always contains a dot |
| JsRuntime.WalkPath | src/providers/theme/useSemanticColor.ts:173-180 | the loop walking path segments through an object finds exactly what the recursive walk `ReadPath` finds |
| JsRuntime.ReadPathTruthy | src/providers/theme/useSemanticColor.ts:104-105 | a value the walk finds is truthy, so never an empty string |
| JsRuntime.ReadPathTwo | src/providers/theme/useSemanticColor.ts:103-110 | a two-segment walk finds the slot's value exactly when both reads give truthy values |
| ThemeTypes.LegacyNamesNotInPalette | src/providers/theme/theme.types.ts:4-65 | no palette name is `main`, `alt1`, `alt2` or `background` |
| ThemeTypes.SchemaShape | src/providers/theme/theme.types.ts:70-181 | category sizes of the schema (63 required slots) and that no required category is a legacy one |
| ThemeTypes.SchemaDotFree | src/providers/theme/theme.types.ts:70-181 | category and slot names contain no dot |
| ThemeTypes.LegacyCategoriesOptional | src/providers/theme/theme.types.ts:166-180 | removing `interface` and `system` from a conforming mapping leaves it conforming |
| ThemeTypes.RequiredCategoryNeeded | src/providers/theme/theme.types.ts:72-164 | a mapping missing any required category does not conform |
| ThemeUtils.PaletteNames | src/providers/theme/theme.utils.ts:7-69 | the palette constant `Palette` (`lcarsColors`) defines exactly the 56 LCARS colour names |
| ThemeUtils.PaletteLookup | src/providers/theme/theme.utils.ts:7-69 | a palette lookup gives the colour its section (core, extended, additional) declares |
| ThemeUtils.GroupsDisjoint | src/providers/theme/theme.utils.ts:7-69 | no name is declared in two palette sections |
| ThemeUtils.PaletteIsHex | src/providers/theme/theme.utils.ts:7-69 | every palette colour has the `#RRGGBB` shape |
| ThemeUtils.PaletteAliases | src/providers/theme/theme.utils.ts:10-68 | four pairs of palette names share the same colour, so colours do not identify names |
| ThemeUtils.Lcars | src/providers/theme/theme.utils.ts:7-69 | `lcarsColors[name]` is defined for every palette name and is a hex palette colour |
| ThemeUtils.GetThemeColor | src/providers/theme/theme.utils.ts:77-91 | legacy names read the legacy fields; other names read the palette; a name in neither gives `main` with exactly one warning |
| Variants.Resolve | src/providers/theme/themeVariants.ts:7-100 | an entry is the palette colour it references or its literal |
| Variants.ResolveAll | src/providers/theme/themeVariants.ts:7-100 | a column resolves entry by entry |
| Variants.Zip | src/providers/theme/themeVariants.ts:8-16 | an object literal of slots has exactly the slot keys, each bound to one of the colours |
| Variants.ZipAt | src/providers/theme/themeVariants.ts:8-16 | a slot not repeated later is bound to its own colour |
| Variants.Tabulate | src/providers/theme/themeVariants.ts:7-100 | a mapping built from columns has exactly the tabulated categories and each category exactly its schema slots |
| Variants.TabulatedConforms | src/providers/theme/themeVariants.ts:7-100 | a mapping built from fitting columns conforms to the schema, has both legacy categories and no empty colour, and takes every non-background colour from the palette |
| Variants.TabulatedAt | src/providers/theme/themeVariants.ts:7-100 | the i-th slot of a category is bound to the i-th entry's colour |
| Variants.VoyagerSemantic | src/providers/theme/themeVariants.ts:7-100 | the voyager mapping conforms, is populated, palette-backed and has both legacy categories |
| Variants.TngSemantic | src/providers/theme/themeVariants.ts:105-198 | the same for tng |
| Variants.Ds9Semantic | src/providers/theme/themeVariants.ts:203-296 | the same for ds9 |
| Variants.DiscoverySemantic | src/providers/theme/themeVariants.ts:301-394 | the same for discovery |
| Variants.BuiltInSemantic | src/providers/theme/themeVariants.ts:399-416 | every built-in variant ships a conforming, populated mapping; a custom tag ships none |
| Variants.GetThemeVariant | src/providers/theme/themeVariants.ts:421-423 | a registered name gives its variant; any other name gives voyager; the result is always a complete built-in mapping |
| Variants.CreateCustomVariant | src/providers/theme/themeVariants.ts:428-433 | the custom variant carries the caller's mapping unchanged under the unregistered name `custom` |
| Variants.RegistryShape | src/providers/theme/themeVariants.ts:399-416 | the registry constant `ThemeVariants` (`themeVariants`) holds exactly the four built-ins, each under its own name, and no `custom` entry |
| Variants.CustomVariantUnchecked | src/providers/theme/themeVariants.ts:428-433 | even an empty, non-conforming mapping is accepted as a custom variant |
| Variants.UnknownNamesGiveVoyager | src/providers/theme/themeVariants.ts:421-423 | every name the registry does not hold, `custom` among them, gives the voyager variant |
| Variants.SwitchingBackRestoresVoyager | src/providers/theme/themeVariants.ts:421-423 | switching voyager, tng, voyager gives back the identical voyager mapping |
| Variants.VoyagerFramePrimary | src/providers/theme/themeVariants.ts:9 | voyager's primary frame colour is the palette's `evening` |
| Variants.VoyagerStatusSuccess | src/providers/theme/themeVariants.ts:38 | voyager's success colour is the palette's `green` |
| Variants.TngFramePrimary | src/providers/theme/themeVariants.ts:107 | tng's primary frame colour is the palette's `orange` |
| Variants.VoyagerOverlay | src/providers/theme/themeVariants.ts:64 | voyager's overlay is `rgba(0, 0, 0, 0.8)`, not a palette colour |
| Variants.TngOverlay | src/providers/theme/themeVariants.ts:162 | tng's overlay is `rgba(0, 0, 0, 0.8)`, not a palette colour |
| Variants.Ds9Overlay | src/providers/theme/themeVariants.ts:260 | ds9's overlay is `rgba(0, 0, 0, 0.85)`, not a palette colour |
| Variants.DiscoveryOverlay | src/providers/theme/themeVariants.ts:358 | discovery's overlay is `rgba(0, 0, 17, 0.9)`, not a palette colour |
| DefaultTheme.VoyagerMapping | src/providers/theme/defaultTheme.ts:6 | the default theme's mapping is the registry's voyager mapping, complete and populated |
| DefaultTheme.Compose | src/providers/theme/defaultTheme.ts:9-83 | the `defaultTheme` literal over any conforming mapping and palette (its partners are the lemmas below) |
| DefaultTheme.ComposedVariant | src/providers/theme/defaultTheme.ts:11-18 | the theme is voyager and carries the mapping and palette it was built from |
| DefaultTheme.LegacyBindings | src/providers/theme/defaultTheme.ts:21-23 | `main`, `alt1`, `alt2` are the frame's primary, accent and secondary colours |
| DefaultTheme.FlatMatchesLegacy | src/providers/theme/defaultTheme.ts:42-51 | the flattened accessor agrees with the legacy fields and with `background`, which is `background.base` |
| DefaultTheme.PaletteCopied | src/providers/theme/defaultTheme.ts:48 | every palette colour reads the same through the accessor, the theme's palette and the palette |
| DefaultTheme.ComposedAccessor | src/providers/theme/defaultTheme.ts:42-51 | the accessor answers for every theme colour name and for `background` |
| DefaultTheme.GetThemeColorAgrees | src/providers/theme/defaultTheme.ts:42-51 | `getThemeColor` agrees with the accessor for legacy and palette names and never warns |
| DefaultTheme.DerivedColors | src/providers/theme/defaultTheme.ts:27-37 | the text and status colours are the mapping's content and status slots |
| DefaultTheme.Default | src/providers/theme/defaultTheme.ts:9-83 | `defaultTheme`: `Compose` of the registry's voyager mapping and the palette |
| DefaultTheme.DefaultIsVoyager | src/providers/theme/defaultTheme.ts:6-51 | the default theme is the composition of the voyager mapping and the palette |
| DefaultTheme.DefaultGetThemeColor | src/providers/theme/defaultTheme.ts:42-51 | on the default theme, `getThemeColor` agrees with the accessor for every theme colour and never warns |
| DefaultTheme.DefaultColors | src/providers/theme/defaultTheme.ts:21 | the default main colour is `evening` and the active status colour `green` |
| ThemeMerge.MergesRecursivelyIffObject | src/providers/theme/theme.tsx:73 | the recursive-merge test holds exactly for objects (not `null`, not arrays) |
| ThemeMerge.DeepMerge | src/providers/theme/theme.tsx:69-81 | the loop over source keys yields the merge specification `Merged`, whatever order the keys are visited in |
| ThemeMerge.VisitOne | src/providers/theme/theme.tsx:72-78 | visiting one key changes only that key's entry |
| ThemeMerge.Merged | src/providers/theme/theme.tsx:69-81 | `deepMerge` as a value: the target's own properties with each source key merged, replaced or skipped (computed by `DeepMerge`, described by `MergedEntry` and `MergedKeys`) |
| ThemeMerge.MergedEntry | src/providers/theme/theme.tsx:69-81 | each entry of the merge: when it is present, and that it is merged, replaced or copied |
| ThemeMerge.MergedKeys | src/providers/theme/theme.tsx:69-81 | the merge's keys are the target's plus the source's defined keys |
| ThemeMerge.KeepsAbsent | src/providers/theme/theme.tsx:70 | a key the source does not mention keeps the target's value |
| ThemeMerge.MergesObjects | src/providers/theme/theme.tsx:73-74 | a source object is merged in, so the target's other nested entries survive |
| ThemeMerge.Replaces | src/providers/theme/theme.tsx:75-76 | a defined non-object source value (array, string, null, ...) replaces the target's value |
| ThemeMerge.UndefinedKeeps | src/providers/theme/theme.tsx:75 | an `undefined` source value leaves the entry as it was, present or absent |
| ThemeMerge.MergeEmpty | src/providers/theme/theme.tsx:69-81 | merging an empty object gives a copy of the target |
| ThemeMerge.MergeIdempotent | src/providers/theme/theme.tsx:69-81 | merging the same source twice equals merging it once |
| ThemeMerge.ProvidedTheme | src/providers/theme/theme.tsx:89-91 | the theme `ThemeProvider` passes down: the merge for a truthy custom theme, the base otherwise (its partner is `ProvidedThemeChoice`) |
| ThemeMerge.ProvidedThemeChoice | src/providers/theme/theme.tsx:89-91 | no custom theme gives the base; a custom theme gives the merge; an empty one gives the base back |
| Migration.SuggestionsQualified | src/providers/theme/theme.migration.ts:10-36 | every deprecated name has at least one suggestion, and every suggestion is a dotted path |
| Migration.TableNames | src/providers/theme/theme.migration.ts:10-36 | the table constant `ColorMigrationMap` (`colorMigrationMap`) lists exactly the 22 deprecated names |
| Migration.TableNamesBare | src/providers/theme/theme.migration.ts:10-36 | no deprecated name contains a dot |
| Migration.IsDeprecatedColor | src/providers/theme/theme.migration.ts:170-172 | `isDeprecatedColor`: listed in the table or a legacy name (its partner is `DeprecatedIffMapped`) |
| Migration.DeprecatedIffMapped | src/providers/theme/theme.migration.ts:170-172 | a name is deprecated iff it is in the table (the legacy names are in it) |
| Migration.WarningKey | src/providers/theme/theme.migration.ts:51 | the warn-once key: the colour name, a dash, and the component or `unknown` (its partners are `FirstDash`, `WarningKeyInjective` and `WarningKeysCollide`) |
| Migration.FirstDash | src/providers/theme/theme.migration.ts:51 | in a warning key of a dash-free name, the first `-` follows the name |
| Migration.WarningKeyInjective | src/providers/theme/theme.migration.ts:51 | for dash-free colour names, equal keys mean equal names and equivalent components |
| Migration.WarningKeysCollide | src/providers/theme/theme.migration.ts:51 | dashed names can give two different warnings one key; a component of `unknown` and no component share keys |
| Migration.Alternatives | src/providers/theme/theme.migration.ts:56 | the listed alternatives are the explicit ones, else the table's, else none |
| Migration.DeprecationLog.constructor | src/providers/theme/theme.migration.ts:41 | the log starts with no keys and no warnings |
| Migration.DeprecationLog.LogColorDeprecation | src/providers/theme/theme.migration.ts:46-67 | a key is remembered; a warning is written exactly when the key is new, listing the alternatives; one warning per key is kept invariant |
| Migration.WithPrefix | src/providers/theme/theme.migration.ts:184 | the filter keeps exactly the paths with the prefix |
| Migration.WithPrefixIsSubsequence | src/providers/theme/theme.migration.ts:184 | the filter keeps paths in their order |
| Migration.WithEmptyPrefix | src/providers/theme/theme.migration.ts:184 | the empty prefix keeps every path |
| Migration.SubsequenceRefl | src/providers/theme/theme.migration.ts:188 | a list is a subsequence of itself |
| Migration.GetSemanticSuggestions | src/providers/theme/theme.migration.ts:177-189 | without a truthy context, the table's entry for the name (none for an unlisted name); with one, exactly the entries that start with it when any does, and the whole entry when none does |
| Migration.SuggestionsFromTable | src/providers/theme/theme.migration.ts:177-189 | suggestions are always an in-order selection of the table's; without a context all of them; with a context the matching ones when any match, else all of them |
| Migration.PropPath | src/providers/theme/theme.migration.ts:98-127 | no colour gives the default; a dotted colour is returned as is; a bare one is qualified by the context |
| Migration.MigrateColorProp | src/providers/theme/theme.migration.ts:98-127 | returns `PropPath`, and logs a deprecated bare name for `Component` listing the context-filtered suggestions, nothing otherwise |
| Migration.PropSuggestions | src/providers/theme/theme.migration.ts:114-120 | the list it reports is `getSemanticSuggestions` for the context |
| Migration.SemanticValue | src/providers/theme/theme.types.ts:70-181 | a mapping as a JavaScript object has the mapping's categories and slots |
| Migration.SemanticWalk | src/providers/theme/theme.migration.ts:199-211 | walking `category.slot` finds a non-empty slot colour and nothing otherwise |
| Migration.MigrateColorAtRuntime | src/providers/theme/theme.migration.ts:194-221 | the recursive method returns `RuntimeColor`: a dotted path walked, a bare name as its first suggestion |
| Migration.RuntimeQualified | src/providers/theme/theme.migration.ts:199-212 | `category.slot` migrates to the slot's colour when it is non-empty, otherwise to null |
| Migration.RuntimeBareName | src/providers/theme/theme.migration.ts:215-220 | a bare table name migrates as its first suggestion; a bare unlisted name gives null |
| Migration.RuntimeColorNonEmpty | src/providers/theme/theme.migration.ts:194-221 | a migrated colour is never empty |
| Migration.MainMigratesAsFramePrimary | src/providers/theme/theme.migration.ts:215-217 | `main` migrates as `frame.primary` does |
| Migration.MainMigratesToFramePrimary | src/providers/theme/theme.migration.ts:194-221 | on a conforming, populated mapping `main` migrates to the primary frame colour |
| Migration.FramePrimaryMigrates | src/providers/theme/theme.migration.ts:199-211 | `frame.primary` migrates to the mapping's primary frame colour when it is non-empty |
| Migration.GenerateMigrationReport | src/providers/theme/theme.migration.ts:150-165 | the report counts the files and lists no usages |
| SemanticResolver.QualifyAll | src/providers/theme/useSemanticColor.ts:189-261 | qualifying a slot list gives `category.slot` for each slot in order |
| SemanticResolver.FramePathsFollowSchema | src/providers/theme/useSemanticColor.ts:189-198 | the listed frame paths are the schema's frame slots, qualified, in order (one such lemma per category) |
| SemanticResolver.IsSemanticColorPath | src/providers/theme/useSemanticColor.ts:188-263 | `isSemanticColorPath`: membership in the 63 listed paths (its partner is `ValidPathIffSchemaPath`) |
| SemanticResolver.ListedInCategory | src/providers/theme/useSemanticColor.ts:188-263 | an accepted path is in one of the eight category lists |
| SemanticResolver.ValidIsSchemaPath | src/providers/theme/useSemanticColor.ts:188-263 | every accepted path is a required category followed by one of its slots |
| SemanticResolver.SchemaPathIsValid | src/providers/theme/useSemanticColor.ts:188-263 | every required category and slot pair is accepted |
| SemanticResolver.ValidPathIffSchemaPath | src/providers/theme/useSemanticColor.ts:188-263 | the guard accepts a path iff it is a required category and one of its slots |
| SemanticResolver.OtherCategoryRejected | src/providers/theme/useSemanticColor.ts:188-263 | a path in any other category is rejected |
| SemanticResolver.LegacyPathsRejected | src/providers/theme/useSemanticColor.ts:188-263 | paths in the legacy categories `interface` and `system` are rejected |
| SemanticResolver.OtherSlotRejected | src/providers/theme/useSemanticColor.ts:188-263 | a slot its category does not declare is rejected |
| SemanticResolver.PropPathOutsideSchema | src/providers/theme/theme.migration.ts:125-126 | the path `migrateColorProp` builds from a bare name not in the context's slots is rejected by the guard |
| SemanticResolver.MainPropNotAPath | src/providers/theme/theme.migration.ts:125-126 | `main` in context `frame` gives `frame.main`, which is rejected |
| SemanticResolver.ValidPathResolves | src/providers/theme/useSemanticColor.ts:188-263 | on a conforming, populated mapping every accepted path names a present, non-empty slot |
| SemanticResolver.FirstSuggestionsListed | src/providers/theme/theme.migration.ts:10-36 | every deprecated name's first suggestion is an accepted path |
| SemanticResolver.PaleBlueSuggestions | src/providers/theme/theme.migration.ts:10-36 | `paleBlue` suggests `content.linkVisited` and then `action.pressed` |
| SemanticResolver.PressedIsNotAPath | src/providers/theme/theme.migration.ts:10-36 | `action.pressed` is rejected; `pressed` is only a slot of `interface` |
| SemanticResolver.DeprecatedNameMigrates | src/providers/theme/theme.migration.ts:215-217 | on a conforming, populated mapping every deprecated name migrates to the colour its first suggestion names |
| SemanticResolver.FramePrimary | src/providers/theme/useSemanticColor.ts:178 | the fallback reads `frame.primary`, and throws when `frame` is missing |
| SemanticResolver.GetSemanticColor | src/providers/theme/useSemanticColor.ts:166-183 | the method's walk returns `SemanticLookup` of the theme's mapping |
| SemanticResolver.LookupValidPath | src/providers/theme/useSemanticColor.ts:166-183 | an accepted path on a conforming, populated mapping gives its slot colour, without an error |
| SemanticResolver.LookupFallback | src/providers/theme/useSemanticColor.ts:176-178 | a missed path on a conforming mapping gives the primary frame colour and one error |
| SemanticResolver.LookupThrowsWithoutFrame | src/providers/theme/useSemanticColor.ts:176-178 | a missed path on a mapping without `frame` throws |
| SemanticResolver.EmptyMappingThrows | src/providers/theme/useSemanticColor.ts:176-178 | on the empty (custom) mapping every lookup throws |
| SemanticResolver.LegacyPathsStillResolve | src/providers/theme/useSemanticColor.ts:166-183 | a legacy `interface` path the guard rejects still resolves on a mapping that has it |
| SemanticResolver.UseSemanticColors | src/providers/theme/useSemanticColor.ts:149-160 | the loop over keys gives `LookupAll`: a lookup per key, or a throw |
| SemanticResolver.LookupAllEntries | src/providers/theme/useSemanticColor.ts:149-160 | on a conforming mapping it never throws, has the same keys as its input, and each entry is that key's own lookup |
| SemanticResolver.RegisteredVariantsResolve | src/providers/theme/useSemanticColor.ts:166-183 | every accepted path resolves without error on every registered variant |
| SemanticResolver.UseSemanticColor | src/providers/theme/useSemanticColor.ts:90-136 | the hook returns `ColorLookup` and logs a deprecation exactly for legacy or palette names |
| SemanticResolver.DeprecatedNameUsesMapping | src/providers/theme/useSemanticColor.ts:116-126 | a deprecated legacy or palette name reads its first suggestion's slot in the mapping |
| SemanticResolver.UnmappedNameUsesAccessor | src/providers/theme/useSemanticColor.ts:129-135 | any other bare name reads the flattened accessor, or falls back with an error |
| SemanticResolver.LegacyNameReadsFrame | src/providers/theme/useSemanticColor.ts:116-126 | a legacy name whose first suggestion is `frame.slot` reads that frame slot |
| SemanticResolver.MainFirstSuggestion | src/providers/theme/theme.migration.ts:10-36 | `main` is first migrated to `frame.primary` |
| SemanticResolver.Alt1FirstSuggestion | src/providers/theme/theme.migration.ts:10-36 | `alt1` is first migrated to `frame.accent` |
| SemanticResolver.Alt2FirstSuggestion | src/providers/theme/theme.migration.ts:10-36 | `alt2` is first migrated to `frame.secondary` |
| SemanticResolver.HookAgreesWithLegacyFields | src/providers/theme/useSemanticColor.ts:90-136 | on a composed theme, the hook gives the same colours for `main`, `alt1` and `alt2` as the legacy fields do |

## Left out

- Rendering: the React components, `ThemeContext`, `useTheme` and the JSX of `ThemeProvider`. The resolvers take the theme as a parameter.
- Console output: messages become `Notice` values. Their wording, including the migration guide link, is not modelled.
- `analyzeColorUsage`: it scans source text with regular expressions, which are not modelled.
- The default theme inside `theme.tsx`: `ProvidedTheme` takes the base theme as a parameter rather than fixing either of the two default theme literals.
- `index.ts`: re-exports only.
- String targets in `deepMerge`: spreading a string or an array into an object (its characters or indices as keys) is not modelled. `Spread` gives the empty object for every non-object.
- String targets in path walks: indexing a string (`"abc"[0]`) and its `length` are not modelled. Neither are properties inherited from `Object.prototype` in `in` tests and lookups, so reading a segment of a string value finds nothing.
- Key order: JavaScript enumerates object keys in insertion order. The loops of `DeepMerge` and `UseSemanticColors` visit keys in any order, and the proofs show that the result does not depend on it.
- Numbers: `Value.Num` holds an integer. Fractions, `NaN` and the infinities of JavaScript numbers are not modelled. In the core, numbers are only copied by `deepMerge` or tested for truthiness (`0` is falsy).
- Registry representation: the registry is modelled as a map from names to variant tags. `BuiltIn` gives each tag's table.
- Colour format: `IsHexColor` checks the `#RRGGBB` shape (length and leading `#`), not that the six characters are hex digits.
- Type-level types: the TypeScript types `SemanticColorPath` and `ThemeColors` exist only at compile time. Callers can pass any string at run time, and the model takes any string.
- SemanticResolver.UseSemanticColors: does not collect the errors its individual lookups print, because the result record is all the source returns.
- SemanticResolver.UseSemanticColor: an error printed before a fallback that then throws is lost with the throw, because `Outcome` carries no notices on a throw.
- Migration.DeprecationLog.LogColorDeprecation: a missing component is written as the empty string, which the source treats like `undefined`.
- Migration.GenerateMigrationReport: the source's placeholder builds no usages, and neither does the model.
