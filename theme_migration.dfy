/**
  The migration layer from appearance-based colour names to semantic
  paths: the migration table, the warn-once deprecation log, the
  suggestion filter, the prop migration, the runtime resolution of a
  deprecated name through the current semantic mapping, and the report
  placeholder.

  Console warnings are kept as `Notice` values. The set of warning keys the
  source keeps at module level, and the warnings written so far, are the
  fields of one `DeprecationLog` object.
 */
module Migration {
  import opened Strings
  import opened JsRuntime
  import opened ThemeTypes

  /** `colorMigrationMap`: for each deprecated name, the semantic paths that
      replace it, most likely first. */
  const ColorMigrationMap: map<string, seq<string>> := map[
    // legacy generic names
    "main" := [Qualify("frame", "primary"), Qualify("content", "heading")],
    "alt1" := [Qualify("frame", "accent"), Qualify("action", "secondary")],
    "alt2" := [Qualify("frame", "secondary"), Qualify("navigation", "item")],
    // core palette names
    "evening" := [Qualify("frame", "primary"), Qualify("content", "heading")],
    "midnight" := [Qualify("frame", "divider"), Qualify("lcars", "bracket")],
    "cool" := [Qualify("frame", "secondary"), Qualify("status", "info")],
    "honey" := [Qualify("frame", "accent"), Qualify("navigation", "indicator")],
    "cardinal" := [Qualify("status", "error"), Qualify("lcars", "alert")],
    "tangerine" := [Qualify("status", "warning"), Qualify("lcars", "caution")],
    "green" := [Qualify("status", "success"), Qualify("action", "primaryActive")],
    "galaxy" := [Qualify("navigation", "itemDisabled"), Qualify("action", "disabled")],
    "ghost" := [Qualify("content", "primary")],
    "moonshine" := [Qualify("content", "inverse")],
    // extended palette names
    "orange" := [Qualify("action", "primary"), Qualify("data", "series1")],
    "mango" := [Qualify("action", "primaryHover"), Qualify("lcars", "pill")],
    "lilac" := [Qualify("action", "secondary"), Qualify("navigation", "item")],
    "purple" := [Qualify("action", "secondaryHover"), Qualify("data", "series4")],
    "brick" := [Qualify("status", "errorLight")],
    "paleBlue" := [Qualify("content", "linkVisited"), Qualify("action", "pressed")],
    "skyBlue" := [Qualify("content", "link"), Qualify("action", "focus")],
    "bigBlue" := [Qualify("content", "linkHover"), Qualify("lcars", "sweep")],
    "gray" := [Qualify("action", "disabled"), Qualify("status", "neutral")]
  ]

  /** Every name in the table has at least one suggestion, and every
      suggestion is a dotted path. */
  lemma SuggestionsQualified()
    ensures forall name | name in ColorMigrationMap :: |ColorMigrationMap[name]| > 0
    ensures forall name, i | name in ColorMigrationMap && 0 <= i < |ColorMigrationMap[name]| ::
      HasDot(ColorMigrationMap[name][i])
  {
    forall name | name in ColorMigrationMap
      ensures |ColorMigrationMap[name]| > 0
      ensures forall i | 0 <= i < |ColorMigrationMap[name]| :: HasDot(ColorMigrationMap[name][i])
    {
    }
  }

  /** The names the table lists. */
  const MappedNames: set<string> := {
    "main", "alt1", "alt2", "evening", "midnight", "cool", "honey", "cardinal", "tangerine",
    "green", "galaxy", "ghost", "moonshine", "orange", "mango", "lilac", "purple", "brick",
    "paleBlue", "skyBlue", "bigBlue", "gray"}

  lemma TableNames()
    ensures ColorMigrationMap.Keys == MappedNames
  {
  }

  lemma MappedNamesDotFree()
    ensures forall name | name in MappedNames :: DotFree(name)
  {
  }

  /** No name in the table contains a dot. */
  lemma TableNamesBare()
    ensures forall name | name in ColorMigrationMap :: !HasDot(name)
  {
    TableNames();
    MappedNamesDotFree();
    forall name | name in ColorMigrationMap
      ensures DotFree(name)
    {
      assert name in ColorMigrationMap.Keys;
    }
  }

  /** `isDeprecatedColor`: in the table, or one of the legacy names. */
  predicate IsDeprecatedColor(color: string) {
    color in ColorMigrationMap || color in LegacyColorNames
  }

  /** The legacy names are themselves in the table, so a name is deprecated
      exactly when the table has an entry for it. */
  lemma DeprecatedIffMapped(color: string)
    ensures IsDeprecatedColor(color) <==> color in ColorMigrationMap
  {
    assert "main" in ColorMigrationMap && "alt1" in ColorMigrationMap && "alt2" in ColorMigrationMap;
  }

  // ---------------------------------------------------------------------
  // Warn-once deprecation log.
  // ---------------------------------------------------------------------

  /** `${colorName}-${componentName || 'unknown'}`: the key under which a
      warning is remembered. A missing component is the empty string. */
  function WarningKey(colorName: string, componentName: string): string {
    colorName + "-" + (if componentName == "" then "unknown" else componentName)
  }

  /** In a warning key, the first `-` is the one right after the colour
      name, when the name has none of its own. */
  lemma FirstDash(name: string, component: string)
    requires forall i | 0 <= i < |name| :: name[i] != '-'
    ensures var key := WarningKey(name, component);
      |name| < |key| && key[|name|] == '-' && key[..|name|] == name
      && forall i | 0 <= i < |name| :: key[i] != '-'
    ensures WarningKey(name, component)[|name| + 1..] == if component == "" then "unknown" else component
  {
  }

  /** The key tells colour names apart as long as they contain no `-`, and
      then also tells the component labels apart. */
  lemma WarningKeyInjective(name1: string, component1: string, name2: string, component2: string)
    requires forall i | 0 <= i < |name1| :: name1[i] != '-'
    requires forall i | 0 <= i < |name2| :: name2[i] != '-'
    ensures WarningKey(name1, component1) == WarningKey(name2, component2) ==>
      name1 == name2
      && (if component1 == "" then "unknown" else component1) == (if component2 == "" then "unknown" else component2)
  {
    FirstDash(name1, component1);
    FirstDash(name2, component2);
    if WarningKey(name1, component1) == WarningKey(name2, component2) {
      assert |name1| == |name2|;
    }
  }

  /** Palette names do contain `-`, and two different warnings can then
      share a key: a warning for `almond-creme` in component `X` silences the
      one for `almond` in a component called `creme-X`. A component given as
      `unknown` shares its key with a missing component. */
  lemma WarningKeysCollide()
    ensures WarningKey("almond-creme", "X") == WarningKey("almond", "creme-X")
    ensures forall name :: WarningKey(name, "unknown") == WarningKey(name, "")
  {
  }

  /** The alternatives a warning lists: the explicit suggestions when given
      (even an empty list), otherwise the table's entry, otherwise none. */
  function Alternatives(colorName: string, suggested: Option<seq<string>>): (alternatives: seq<string>)
    ensures suggested.Some? ==> alternatives == suggested.value
    ensures suggested.None? && colorName in ColorMigrationMap ==> alternatives == ColorMigrationMap[colorName]
    ensures suggested.None? && colorName !in ColorMigrationMap ==> alternatives == []
  {
    if suggested.Some? then suggested.value
    else if colorName in ColorMigrationMap then ColorMigrationMap[colorName]
    else []
  }

  /** The key a written deprecation warning was filed under. */
  function NoticeKey(notice: Notice): string
    requires notice.DeprecatedColor?
  {
    WarningKey(notice.colorName, notice.component)
  }

  /** The module-level `deprecationWarnings` set together with the warnings
      written to the console so far. */
  class DeprecationLog {
    var warned: set<string>
    var notices: seq<Notice>

    /** Exactly one deprecation warning has been written per remembered key. */
    ghost predicate Valid()
      reads this
    {
      |notices| == |warned|
      && (forall i | 0 <= i < |notices| :: notices[i].DeprecatedColor? && NoticeKey(notices[i]) in warned)
      && (forall i, j | 0 <= i < j < |notices| ::
            notices[i].DeprecatedColor? && notices[j].DeprecatedColor? ==>
            NoticeKey(notices[i]) != NoticeKey(notices[j]))
    }

    constructor()
      ensures Valid() && warned == {} && notices == []
    {
      warned := {};
      notices := [];
    }

    /** `logColorDeprecation`: the first time a (colour, component) key is
        seen, remember it and write one warning listing the alternatives;
        every later time, do nothing. */
    method LogColorDeprecation(colorName: string, componentName: string, suggested: Option<seq<string>>)
      requires Valid()
      modifies this
      ensures Valid()
      ensures warned == old(warned) + {WarningKey(colorName, componentName)}
      ensures WarningKey(colorName, componentName) in old(warned) ==> notices == old(notices)
      ensures WarningKey(colorName, componentName) !in old(warned) ==>
        notices == old(notices) + [DeprecatedColor(colorName, componentName, Alternatives(colorName, suggested))]
    {
      var key := WarningKey(colorName, componentName);
      if key !in warned {
        var notice := DeprecatedColor(colorName, componentName, Alternatives(colorName, suggested));
        assert NoticeKey(notice) == key;
        warned := warned + {key};
        notices := notices + [notice];
      }
    }
  }

  // ---------------------------------------------------------------------
  // Suggestions.
  // ---------------------------------------------------------------------

  /** `paths.filter(p => p.startsWith(prefix))`: the paths with the prefix,
      in their original order. */
  function WithPrefix(paths: seq<string>, prefix: string): (kept: seq<string>)
    ensures forall i | 0 <= i < |kept| :: StartsWith(kept[i], prefix) && kept[i] in paths
    ensures forall p | p in paths && StartsWith(p, prefix) :: p in kept
    ensures |kept| <= |paths|
  {
    if paths == [] then []
    else if StartsWith(paths[0], prefix) then [paths[0]] + WithPrefix(paths[1..], prefix)
    else WithPrefix(paths[1..], prefix)
  }

  /** `sub` is `full` with some elements left out and the rest in order. */
  predicate IsSubsequence(sub: seq<string>, full: seq<string>)
    decreases |full|
  {
    sub == []
    || (full != []
        && ((sub[0] == full[0] && IsSubsequence(sub[1..], full[1..])) || IsSubsequence(sub, full[1..])))
  }

  lemma {:induction false} WithPrefixIsSubsequence(paths: seq<string>, prefix: string)
    ensures IsSubsequence(WithPrefix(paths, prefix), paths)
    decreases |paths|
  {
    if paths != [] {
      WithPrefixIsSubsequence(paths[1..], prefix);
      var kept := WithPrefix(paths, prefix);
      if StartsWith(paths[0], prefix) {
        assert kept[1..] == WithPrefix(paths[1..], prefix);
      }
    }
  }

  /** The empty prefix keeps every path. */
  lemma {:induction false} WithEmptyPrefix(paths: seq<string>)
    ensures WithPrefix(paths, "") == paths
    decreases |paths|
  {
    if paths != [] {
      assert StartsWith(paths[0], "");
      WithEmptyPrefix(paths[1..]);
    }
  }

  /** `colorMigrationMap[name] || []`: the table's suggestions for a name,
      none for a name the table does not list. */
  function TableEntry(name: string): (suggestions: seq<string>)
    ensures name in ColorMigrationMap ==> suggestions == ColorMigrationMap[name]
    ensures name !in ColorMigrationMap ==> suggestions == []
  {
    if name in ColorMigrationMap then ColorMigrationMap[name] else []
  }

  /** `getSemanticSuggestions`: the table's suggestions for the name; with
      a (truthy) usage context, only those starting with the context, unless
      none does, in which case all of them. */
  function GetSemanticSuggestions(deprecatedColor: string, usageContext: Option<string>): (suggestions: seq<string>)
    ensures usageContext.None? || usageContext.value == "" ==> suggestions == TableEntry(deprecatedColor)
    ensures (usageContext.Some? && usageContext.value != ""
             && exists p | p in TableEntry(deprecatedColor) :: StartsWith(p, usageContext.value))
      ==> suggestions == WithPrefix(TableEntry(deprecatedColor), usageContext.value)
    ensures (usageContext.Some? && usageContext.value != ""
             && forall p | p in TableEntry(deprecatedColor) :: !StartsWith(p, usageContext.value))
      ==> suggestions == TableEntry(deprecatedColor)
  {
    var all := TableEntry(deprecatedColor);
    if usageContext.Some? && usageContext.value != "" then
      var inContext := WithPrefix(all, usageContext.value);
      if |inContext| > 0 then inContext else all
    else all
  }

  /** The suggestions are always some of the table's suggestions for the
      name, in the table's order. With a context: every suggestion of the
      table that starts with it is kept; when one does, only those are
      kept; when none does, the whole entry comes back. An unknown name
      gets none. */
  lemma SuggestionsFromTable(deprecatedColor: string, usageContext: Option<string>)
    ensures var all := TableEntry(deprecatedColor);
      var suggestions := GetSemanticSuggestions(deprecatedColor, usageContext);
      IsSubsequence(suggestions, all)
      && (usageContext.None? ==> suggestions == all)
      && (deprecatedColor !in ColorMigrationMap ==> suggestions == [])
      && (usageContext.Some? ==>
            (forall p | p in all && StartsWith(p, usageContext.value) :: p in suggestions)
            && ((exists p | p in all :: StartsWith(p, usageContext.value)) ==>
                  forall p | p in suggestions :: StartsWith(p, usageContext.value))
            && ((forall p | p in all :: !StartsWith(p, usageContext.value)) ==> suggestions == all))
  {
    var all := TableEntry(deprecatedColor);
    WithPrefixIsSubsequence(all, if usageContext.Some? then usageContext.value else "");
    SubsequenceRefl(all);
    if usageContext.Some? && usageContext.value == "" {
      WithEmptyPrefix(all);
    }
  }

  lemma {:induction false} SubsequenceRefl(s: seq<string>)
    ensures IsSubsequence(s, s)
    decreases |s|
  {
    if s != [] {
      SubsequenceRefl(s[1..]);
    }
  }

  // ---------------------------------------------------------------------
  // Prop migration.
  // ---------------------------------------------------------------------

  /** The path `migrateColorProp` returns: the default when no colour is
      given, a dotted name as it is, anything else qualified by the
      context. */
  function PropPath(color: Option<string>, context: string, defaultSemantic: string): (path: string)
    ensures color.None? || color.value == "" ==> path == defaultSemantic
    ensures color.Some? && HasDot(color.value) ==> path == color.value
    ensures color.Some? && color.value != "" && !HasDot(color.value) ==>
      HasDot(path) && (DotFree(context) ==> Split(path) == [context, color.value])
  {
    if color.None? || color.value == "" then defaultSemantic
    else if HasDot(color.value) then color.value
    else
      assert DotFree(color.value);
      if DotFree(context) then SplitQualified(context, color.value); Qualify(context, color.value)
      else Qualify(context, color.value)
  }

  /** `migrateColorProp`: besides choosing the path, a deprecated bare name
      is reported for component `Component`, listing the suggestions that
      fit the context, or all of them when none does. */
  method MigrateColorProp(log: DeprecationLog, color: Option<string>, context: string, defaultSemantic: string)
    returns (path: string)
    requires log.Valid()
    modifies log
    ensures log.Valid()
    ensures path == PropPath(color, context, defaultSemantic)
    ensures color.None? || color.value == "" || HasDot(color.value) || !IsDeprecatedColor(color.value) ==>
      log.warned == old(log.warned) && log.notices == old(log.notices)
    ensures color.Some? && color.value != "" && !HasDot(color.value) && IsDeprecatedColor(color.value) ==>
      var key := WarningKey(color.value, "Component");
      log.warned == old(log.warned) + {key}
      && (key in old(log.warned) ==> log.notices == old(log.notices))
      && (key !in old(log.warned) ==>
            log.notices == old(log.notices) + [DeprecatedColor(color.value, "Component", GetSemanticSuggestions(color.value, Some(context)))])
  {
    if color.None? || color.value == "" {
      return defaultSemantic;
    }
    var name := color.value;
    if HasDot(name) {
      return name;
    }
    if name in ColorMigrationMap || name in LegacyColorNames {
      var suggestions := TableEntry(name);
      var contextSuggestions := WithPrefix(suggestions, context);
      PropSuggestions(name, context);
      log.LogColorDeprecation(name, "Component",
        Some(if |contextSuggestions| > 0 then contextSuggestions else suggestions));
    }
    path := Qualify(context, name);
  }

  /** The list `migrateColorProp` reports is what `getSemanticSuggestions`
      gives for the same context; an empty context filters nothing out. */
  lemma PropSuggestions(name: string, context: string)
    ensures var suggestions := TableEntry(name);
      var contextSuggestions := WithPrefix(suggestions, context);
      (if |contextSuggestions| > 0 then contextSuggestions else suggestions)
        == GetSemanticSuggestions(name, Some(context))
  {
    if context == "" {
      WithEmptyPrefix(TableEntry(name));
    }
  }

  // ---------------------------------------------------------------------
  // Runtime migration.
  // ---------------------------------------------------------------------

  /** A semantic mapping as the JavaScript object the path walkers see:
      one object per category, one string per slot. */
  function SemanticValue(s: SemanticColors): (v: Value)
    ensures v.Obj? && v.fields.Keys == s.Keys
    ensures forall c | c in s :: v.fields[c] == Obj(map slot | slot in s[c] :: Str(s[c][slot]))
  {
    Obj(map c | c in s :: Obj(map slot | slot in s[c] :: Str(s[c][slot])))
  }

  /** Walking `category.slot` through a mapping finds the slot's colour when
      the mapping has it and it is not empty, and nothing otherwise. */
  lemma SemanticWalk(s: SemanticColors, category: string, slot: string)
    ensures ReadPath(SemanticValue(s), [category, slot]) ==
      if category in s && slot in s[category] && s[category][slot] != "" then Some(Str(s[category][slot]))
      else None
  {
    ReadPathTwo(SemanticValue(s), category, slot);
  }

  /** What `migrateColorAtRuntime` returns: a dotted name is walked through
      the mapping and must end on a string; a bare name in the table is
      resolved through its first suggestion; anything else has no colour. */
  function RuntimeColor(color: string, semanticColors: Value): Option<string>
    decreases if HasDot(color) then 0 else 1
  {
    if HasDot(color) then
      match ReadPath(semanticColors, Split(color))
      case Some(Str(found)) => Some(found)
      case _ => None
    else if color in ColorMigrationMap && |ColorMigrationMap[color]| > 0 then
      SuggestionsQualified();
      RuntimeColor(ColorMigrationMap[color][0], semanticColors)
    else None
  }

  /** `migrateColorAtRuntime`. The recursion goes one level deep: every
      suggestion is dotted. */
  method MigrateColorAtRuntime(color: string, semanticColors: Value) returns (migrated: Option<string>)
    requires semanticColors.Obj?
    ensures migrated == RuntimeColor(color, semanticColors)
    decreases if HasDot(color) then 0 else 1
  {
    if HasDot(color) {
      var found := WalkPath(semanticColors, Split(color));
      if found.Some? && found.value.Str? {
        return Some(found.value.s);
      }
      return None;
    }
    var suggestions := TableEntry(color);
    if |suggestions| > 0 {
      SuggestionsQualified();
      migrated := MigrateColorAtRuntime(suggestions[0], semanticColors);
      return;
    }
    return None;
  }

  /** On a mapping, a dotted `category.slot` name migrates to the slot's
      colour when the mapping has a non-empty one, and to nothing
      otherwise. */
  lemma RuntimeQualified(s: SemanticColors, category: string, slot: string)
    requires DotFree(category) && DotFree(slot)
    ensures RuntimeColor(Qualify(category, slot), SemanticValue(s)) ==
      if category in s && slot in s[category] && s[category][slot] != "" then Some(s[category][slot])
      else None
  {
    SplitQualified(category, slot);
    SemanticWalk(s, category, slot);
  }

  /** A bare name migrates exactly as its first suggestion does, and a bare
      name outside the table, including every palette name the table does
      not list, does not migrate. */
  lemma RuntimeBareName(color: string, semanticColors: Value)
    requires !HasDot(color)
    ensures color in ColorMigrationMap ==>
      RuntimeColor(color, semanticColors) == RuntimeColor(ColorMigrationMap[color][0], semanticColors)
    ensures color !in ColorMigrationMap ==> RuntimeColor(color, semanticColors) == None
  {
    SuggestionsQualified();
  }

  /** A found colour is never empty: an empty slot counts as missing. */
  lemma {:induction false} RuntimeColorNonEmpty(color: string, semanticColors: Value)
    requires semanticColors.Obj?
    ensures RuntimeColor(color, semanticColors).Some? ==> RuntimeColor(color, semanticColors).value != ""
    decreases if HasDot(color) then 0 else 1
  {
    if HasDot(color) {
      ReadPathTruthy(semanticColors, Split(color));
    } else if color in ColorMigrationMap && |ColorMigrationMap[color]| > 0 {
      SuggestionsQualified();
      RuntimeColorNonEmpty(ColorMigrationMap[color][0], semanticColors);
    }
  }

  /** `main` migrates as its first suggestion, `frame.primary`, does. */
  lemma MainMigratesAsFramePrimary(semanticColors: Value)
    ensures RuntimeColor("main", semanticColors) == RuntimeColor(Qualify("frame", "primary"), semanticColors)
  {
    assert "main"[0] != '.' && "main"[1] != '.' && "main"[2] != '.' && "main"[3] != '.';
    assert !HasDot("main");
    assert ColorMigrationMap["main"][0] == Qualify("frame", "primary");
    RuntimeBareName("main", semanticColors);
  }

  /** `main` migrates to the mapping's primary frame colour on every
      conforming, populated mapping. */
  lemma MainMigratesToFramePrimary(s: SemanticColors)
    requires IsSemanticColors(s) && Populated(s)
    ensures "frame" in s && "primary" in s["frame"]
    ensures RuntimeColor("main", SemanticValue(s)) == Some(s["frame"]["primary"])
  {
    assert HasCategory(s, RequiredCategories[0]);
    assert s["frame"]["primary"] != "";
    MainMigratesAsFramePrimary(SemanticValue(s));
    FramePrimaryMigrates(s);
  }

  /** `frame.primary` migrates to the mapping's primary frame colour
      whenever there is a non-empty one. */
  lemma FramePrimaryMigrates(s: SemanticColors)
    requires "frame" in s && "primary" in s["frame"] && s["frame"]["primary"] != ""
    ensures RuntimeColor(Qualify("frame", "primary"), SemanticValue(s)) == Some(s["frame"]["primary"])
  {
    assert DotFree("frame") && DotFree("primary");
    RuntimeQualified(s, "frame", "primary");
  }

  // ---------------------------------------------------------------------
  // Migration report.
  // ---------------------------------------------------------------------

  datatype SourceFile = SourceFile(path: string, content: string)

  datatype DeprecatedUsage = DeprecatedUsage(
    file: string, component: string, colors: seq<string>, suggestions: map<string, seq<string>>)

  datatype MigrationReport = MigrationReport(
    totalFiles: nat,
    filesWithDeprecated: nat,
    deprecatedUsages: seq<DeprecatedUsage>,
    byColor: map<string, nat>,
    byComponent: map<string, nat>)

  /** `generateMigrationReport`, a placeholder: it counts the files and
      reports no deprecated usage, whatever the files contain. */
  function GenerateMigrationReport(files: seq<SourceFile>): (report: MigrationReport)
    ensures report.totalFiles == |files|
    ensures report.filesWithDeprecated == |report.deprecatedUsages| == 0
    ensures report.byColor == map[] && report.byComponent == map[]
  {
    MigrationReport(|files|, 0, [], map[], map[])
  }

  /** The report depends on the number of files only. */
  lemma ReportIgnoresContents(files1: seq<SourceFile>, files2: seq<SourceFile>)
    requires |files1| == |files2|
    ensures GenerateMigrationReport(files1) == GenerateMigrationReport(files2)
  {
  }
}
