/**
  The semantic colour resolvers: `getSemanticColor`, `useSemanticColor`
  with its legacy-name handling, `useSemanticColors`, and the
  `isSemanticColorPath` guard.

  A hook reads the theme from context; here the theme is a parameter. The
  resolvers walk the theme's semantic mapping as a JavaScript object
  (`SemanticValue`), so a path with too many or too few segments, or a
  slot a partial mapping lacks, behaves as it does in the source: the walk
  stops and the primary frame colour is used instead, which itself throws
  when the mapping has no `frame` category.
 */
module SemanticResolver {
  import opened Strings
  import opened JsRuntime
  import opened ThemeTypes
  import opened Migration
  import opened Variants
  import opened DefaultTheme

  // ---------------------------------------------------------------------
  // The path vocabulary.
  // ---------------------------------------------------------------------

  // The accepted paths, category by category, in the order of the source's
  // list.
  const FramePaths: seq<string> := [
    Qualify("frame", "primary"), Qualify("frame", "secondary"), Qualify("frame", "accent"),
    Qualify("frame", "divider"), Qualify("frame", "corner"), Qualify("frame", "sidebar"),
    Qualify("frame", "topbar")]
  const ActionPaths: seq<string> := [
    Qualify("action", "primary"), Qualify("action", "primaryHover"),
    Qualify("action", "primaryActive"), Qualify("action", "secondary"),
    Qualify("action", "secondaryHover"), Qualify("action", "secondaryActive"),
    Qualify("action", "disabled"), Qualify("action", "focus")]
  const NavigationPaths: seq<string> := [
    Qualify("navigation", "item"), Qualify("navigation", "itemHover"),
    Qualify("navigation", "itemActive"), Qualify("navigation", "itemDisabled"),
    Qualify("navigation", "indicator"), Qualify("navigation", "breadcrumb")]
  const StatusPaths: seq<string> := [
    Qualify("status", "info"), Qualify("status", "infoLight"), Qualify("status", "success"),
    Qualify("status", "successLight"), Qualify("status", "warning"),
    Qualify("status", "warningLight"), Qualify("status", "warningCritical"),
    Qualify("status", "error"), Qualify("status", "errorLight"),
    Qualify("status", "errorCritical"), Qualify("status", "neutral")]
  const ContentPaths: seq<string> := [
    Qualify("content", "primary"), Qualify("content", "secondary"), Qualify("content", "tertiary"),
    Qualify("content", "inverse"), Qualify("content", "link"), Qualify("content", "linkHover"),
    Qualify("content", "linkVisited"), Qualify("content", "code"), Qualify("content", "heading")]
  const BackgroundPaths: seq<string> := [
    Qualify("background", "base"), Qualify("background", "elevated"),
    Qualify("background", "elevatedHigher"), Qualify("background", "depressed"),
    Qualify("background", "overlay"), Qualify("background", "stripe")]
  const DataPaths: seq<string> := [
    Qualify("data", "series1"), Qualify("data", "series2"), Qualify("data", "series3"),
    Qualify("data", "series4"), Qualify("data", "series5"), Qualify("data", "positive"),
    Qualify("data", "negative"), Qualify("data", "neutral")]
  const LcarsPaths: seq<string> := [
    Qualify("lcars", "sweep"), Qualify("lcars", "elbow"), Qualify("lcars", "pill"),
    Qualify("lcars", "bracket"), Qualify("lcars", "terminal"), Qualify("lcars", "hologram"),
    Qualify("lcars", "alert"), Qualify("lcars", "caution")]

  const ValidPaths: seq<string> :=
    FramePaths + ActionPaths + NavigationPaths + StatusPaths + ContentPaths
    + BackgroundPaths + DataPaths + LcarsPaths

  /** `isSemanticColorPath`: the path is one of the listed ones. */
  predicate IsSemanticColorPath(path: string) {
    path in ValidPaths
  }

  /** `category.slot` for every slot, in order. */
  function QualifyAll(category: string, slots: seq<string>): (paths: seq<string>)
    ensures |paths| == |slots|
    ensures forall i | 0 <= i < |slots| :: paths[i] == Qualify(category, slots[i])
  {
    seq(|slots|, i requires 0 <= i < |slots| => Qualify(category, slots[i]))
  }

  /** A path the schema declares: a required category and one of its slots,
      joined by a dot. */
  predicate SchemaPath(path: string) {
    var parts := Split(path);
    |parts| == 2 && parts[0] in RequiredCategories && parts[1] in SlotsOf(parts[0])
  }

  // Each category's list is exactly its schema slots, qualified.

  lemma FramePathsFollowSchema() ensures FramePaths == QualifyAll("frame", FrameSlots) { }
  lemma ActionPathsFollowSchema() ensures ActionPaths == QualifyAll("action", ActionSlots) { }
  lemma NavigationPathsFollowSchema() ensures NavigationPaths == QualifyAll("navigation", NavigationSlots) { }
  lemma StatusPathsFollowSchema() ensures StatusPaths == QualifyAll("status", StatusSlots) { }
  lemma ContentPathsFollowSchema() ensures ContentPaths == QualifyAll("content", ContentSlots) { }
  lemma BackgroundPathsFollowSchema() ensures BackgroundPaths == QualifyAll("background", BackgroundSlots) { }
  lemma DataPathsFollowSchema() ensures DataPaths == QualifyAll("data", DataSlots) { }
  lemma LcarsPathsFollowSchema() ensures LcarsPaths == QualifyAll("lcars", LcarsSlots) { }

  /** A qualified schema slot is a schema path. */
  lemma QualifiedIsSchemaPath(category: string, path: string)
    requires category in RequiredCategories && path in QualifyAll(category, SlotsOf(category))
    ensures SchemaPath(path)
  {
    var paths := QualifyAll(category, SlotsOf(category));
    var i :| 0 <= i < |paths| && paths[i] == path;
    SchemaDotFree(category);
    assert DotFree(SlotsOf(category)[i]);
    SplitQualified(category, SlotsOf(category)[i]);
  }

  /** A schema path is its category and slot, qualified. */
  lemma SchemaPathIsQualified(path: string)
    requires SchemaPath(path)
    ensures path in QualifyAll(Split(path)[0], SlotsOf(Split(path)[0]))
  {
    var parts := Split(path);
    assert parts[1..] == [parts[1]];
    assert path == Join(parts) == parts[0] + "." + parts[1];
    var slots := SlotsOf(parts[0]);
    var i :| 0 <= i < |slots| && slots[i] == parts[1];
    assert QualifyAll(parts[0], slots)[i] == path;
  }

  /** A schema path of a category is in that category's list of paths. */
  lemma SchemaPathListedIn(path: string, category: string, paths: seq<string>)
    requires SchemaPath(path) && Split(path)[0] == category
    requires paths == QualifyAll(category, SlotsOf(category))
    ensures path in paths
  {
    SchemaPathIsQualified(path);
  }

  /** A listed path is in one of the category lists, and back. */
  lemma ListedInCategory(path: string)
    ensures IsSemanticColorPath(path) <==>
      path in FramePaths || path in ActionPaths || path in NavigationPaths || path in StatusPaths
      || path in ContentPaths || path in BackgroundPaths || path in DataPaths || path in LcarsPaths
  {
  }

  lemma FramePathsAreSchemaPaths(path: string)
    requires path in FramePaths
    ensures SchemaPath(path)
  {
    FramePathsFollowSchema();
    QualifiedIsSchemaPath("frame", path);
  }

  lemma FrameSchemaPathsListed(path: string)
    requires SchemaPath(path) && Split(path)[0] == "frame"
    ensures path in FramePaths
  {
    assert SlotsOf("frame") == FrameSlots;
    FramePathsFollowSchema();
    SchemaPathListedIn(path, "frame", FramePaths);
  }

  lemma ActionPathsAreSchemaPaths(path: string)
    requires path in ActionPaths
    ensures SchemaPath(path)
  {
    ActionPathsFollowSchema();
    QualifiedIsSchemaPath("action", path);
  }

  lemma ActionSchemaPathsListed(path: string)
    requires SchemaPath(path) && Split(path)[0] == "action"
    ensures path in ActionPaths
  {
    assert SlotsOf("action") == ActionSlots;
    ActionPathsFollowSchema();
    SchemaPathListedIn(path, "action", ActionPaths);
  }

  lemma NavigationPathsAreSchemaPaths(path: string)
    requires path in NavigationPaths
    ensures SchemaPath(path)
  {
    NavigationPathsFollowSchema();
    QualifiedIsSchemaPath("navigation", path);
  }

  lemma NavigationSchemaPathsListed(path: string)
    requires SchemaPath(path) && Split(path)[0] == "navigation"
    ensures path in NavigationPaths
  {
    assert SlotsOf("navigation") == NavigationSlots;
    NavigationPathsFollowSchema();
    SchemaPathListedIn(path, "navigation", NavigationPaths);
  }

  lemma StatusPathsAreSchemaPaths(path: string)
    requires path in StatusPaths
    ensures SchemaPath(path)
  {
    StatusPathsFollowSchema();
    QualifiedIsSchemaPath("status", path);
  }

  lemma StatusSchemaPathsListed(path: string)
    requires SchemaPath(path) && Split(path)[0] == "status"
    ensures path in StatusPaths
  {
    assert SlotsOf("status") == StatusSlots;
    StatusPathsFollowSchema();
    SchemaPathListedIn(path, "status", StatusPaths);
  }

  lemma ContentPathsAreSchemaPaths(path: string)
    requires path in ContentPaths
    ensures SchemaPath(path)
  {
    ContentPathsFollowSchema();
    QualifiedIsSchemaPath("content", path);
  }

  lemma ContentSchemaPathsListed(path: string)
    requires SchemaPath(path) && Split(path)[0] == "content"
    ensures path in ContentPaths
  {
    assert SlotsOf("content") == ContentSlots;
    ContentPathsFollowSchema();
    SchemaPathListedIn(path, "content", ContentPaths);
  }

  lemma BackgroundPathsAreSchemaPaths(path: string)
    requires path in BackgroundPaths
    ensures SchemaPath(path)
  {
    BackgroundPathsFollowSchema();
    QualifiedIsSchemaPath("background", path);
  }

  lemma BackgroundSchemaPathsListed(path: string)
    requires SchemaPath(path) && Split(path)[0] == "background"
    ensures path in BackgroundPaths
  {
    assert SlotsOf("background") == BackgroundSlots;
    BackgroundPathsFollowSchema();
    SchemaPathListedIn(path, "background", BackgroundPaths);
  }

  lemma DataPathsAreSchemaPaths(path: string)
    requires path in DataPaths
    ensures SchemaPath(path)
  {
    DataPathsFollowSchema();
    QualifiedIsSchemaPath("data", path);
  }

  lemma DataSchemaPathsListed(path: string)
    requires SchemaPath(path) && Split(path)[0] == "data"
    ensures path in DataPaths
  {
    assert SlotsOf("data") == DataSlots;
    DataPathsFollowSchema();
    SchemaPathListedIn(path, "data", DataPaths);
  }

  lemma LcarsPathsAreSchemaPaths(path: string)
    requires path in LcarsPaths
    ensures SchemaPath(path)
  {
    LcarsPathsFollowSchema();
    QualifiedIsSchemaPath("lcars", path);
  }

  lemma LcarsSchemaPathsListed(path: string)
    requires SchemaPath(path) && Split(path)[0] == "lcars"
    ensures path in LcarsPaths
  {
    assert SlotsOf("lcars") == LcarsSlots;
    LcarsPathsFollowSchema();
    SchemaPathListedIn(path, "lcars", LcarsPaths);
  }

  /** Every listed path is a schema path. */
  lemma ValidIsSchemaPath(path: string)
    requires IsSemanticColorPath(path)
    ensures SchemaPath(path)
  {
    ListedInCategory(path);
    if path in FramePaths { FramePathsAreSchemaPaths(path); }
    else if path in ActionPaths { ActionPathsAreSchemaPaths(path); }
    else if path in NavigationPaths { NavigationPathsAreSchemaPaths(path); }
    else if path in StatusPaths { StatusPathsAreSchemaPaths(path); }
    else if path in ContentPaths { ContentPathsAreSchemaPaths(path); }
    else if path in BackgroundPaths { BackgroundPathsAreSchemaPaths(path); }
    else if path in DataPaths { DataPathsAreSchemaPaths(path); }
    else { LcarsPathsAreSchemaPaths(path); }
  }

  lemma RequiredCategoryNames(category: string)
    requires category in RequiredCategories
    ensures category == "frame" || category == "action" || category == "navigation" || category == "status"
      || category == "content" || category == "background" || category == "data" || category == "lcars"
  {
  }

  /** Every schema path is listed. */
  lemma SchemaPathIsValid(path: string)
    requires SchemaPath(path)
    ensures IsSemanticColorPath(path)
  {
    ListedInCategory(path);
    var category := Split(path)[0];
    RequiredCategoryNames(category);
    if category == "frame" { FrameSchemaPathsListed(path); }
    else if category == "action" { ActionSchemaPathsListed(path); }
    else if category == "navigation" { NavigationSchemaPathsListed(path); }
    else if category == "status" { StatusSchemaPathsListed(path); }
    else if category == "content" { ContentSchemaPathsListed(path); }
    else if category == "background" { BackgroundSchemaPathsListed(path); }
    else if category == "data" { DataSchemaPathsListed(path); }
    else { LcarsSchemaPathsListed(path); }
  }

  /** The listed paths are exactly the schema's required slots: a path is
      accepted if and only if it splits into a required category and one
      of that category's slots. */
  lemma ValidPathIffSchemaPath(path: string)
    ensures IsSemanticColorPath(path) <==> SchemaPath(path)
  {
    if IsSemanticColorPath(path) {
      ValidIsSchemaPath(path);
    }
    if SchemaPath(path) {
      SchemaPathIsValid(path);
    }
  }

  /** A path outside the required categories is not accepted. */
  lemma OtherCategoryRejected(category: string, slot: string)
    requires DotFree(category) && DotFree(slot) && category !in RequiredCategories
    ensures !IsSemanticColorPath(Qualify(category, slot))
  {
    SplitQualified(category, slot);
    if IsSemanticColorPath(Qualify(category, slot)) {
      ValidIsSchemaPath(Qualify(category, slot));
    }
  }

  /** The deprecated categories are not accepted, whatever the slot. */
  lemma LegacyPathsRejected(slot: string)
    requires DotFree(slot)
    ensures !IsSemanticColorPath(Qualify("interface", slot))
    ensures !IsSemanticColorPath(Qualify("system", slot))
  {
    CategoryNamesDotFree();
    SchemaShape();
    assert LegacyCategories[0] == "interface" && LegacyCategories[1] == "system";
    OtherCategoryRejected("interface", slot);
    OtherCategoryRejected("system", slot);
  }

  // ---------------------------------------------------------------------
  // Accepted paths, migration suggestions and conforming mappings.
  // ---------------------------------------------------------------------

  /** On a conforming, populated mapping every accepted path is walked to
      the colour of its category and slot. */
  lemma ValidPathResolves(s: SemanticColors, path: string)
    requires IsSemanticColors(s) && Populated(s) && IsSemanticColorPath(path)
    ensures var parts := Split(path);
      |parts| == 2 && parts[0] in s && parts[1] in s[parts[0]]
      && ReadPath(SemanticValue(s), parts) == Some(Str(s[parts[0]][parts[1]]))
  {
    ValidIsSchemaPath(path);
    var parts := Split(path);
    assert HasCategory(s, parts[0]);
    assert parts == [parts[0], parts[1]];
    SemanticWalk(s, parts[0], parts[1]);
  }

  /** Every first suggestion of the migration table is an accepted path. */
  lemma FirstSuggestionsListed()
    ensures forall name | name in ColorMigrationMap :: IsSemanticColorPath(ColorMigrationMap[name][0])
  {
    forall name | name in ColorMigrationMap
      ensures IsSemanticColorPath(ColorMigrationMap[name][0])
    {
      ListedInCategory(ColorMigrationMap[name][0]);
    }
  }

  /** The suggestions for `paleBlue`. */
  lemma PaleBlueSuggestions()
    ensures "paleBlue" in ColorMigrationMap && |ColorMigrationMap["paleBlue"]| == 2
    ensures ColorMigrationMap["paleBlue"][0] == Qualify("content", "linkVisited")
    ensures ColorMigrationMap["paleBlue"][1] == Qualify("action", "pressed")
  {
  }

  /** `action.pressed`, the second suggestion for `paleBlue`, is not an
      accepted path: the action category has no `pressed` slot, only the
      deprecated interface category has one. */
  lemma PressedIsNotAPath()
    ensures !IsSemanticColorPath(Qualify("action", "pressed"))
    ensures "pressed" in SlotsOf("interface") && "pressed" !in SlotsOf("action")
  {
    PressedSlot();
    assert DotFree("action") && DotFree("pressed");
    OtherSlotRejected("action", "pressed");
  }

  lemma PressedSlot()
    ensures "pressed" in SlotsOf("interface") && "pressed" !in SlotsOf("action")
  {
    assert SlotsOf("action") == ActionSlots && SlotsOf("interface") == InterfaceSlots;
  }

  /** A slot its category does not declare is not accepted. */
  lemma OtherSlotRejected(category: string, slot: string)
    requires DotFree(category) && DotFree(slot) && slot !in SlotsOf(category)
    ensures !IsSemanticColorPath(Qualify(category, slot))
  {
    SplitQualified(category, slot);
    if IsSemanticColorPath(Qualify(category, slot)) {
      ValidIsSchemaPath(Qualify(category, slot));
    }
  }

  /** The path `migrateColorProp` builds for a bare colour name is the
      context followed by the colour name, and so is not an accepted path
      unless the colour name happens to be a slot of the context. */
  lemma PropPathOutsideSchema(color: string, context: string, defaultSemantic: string)
    requires color != "" && DotFree(color) && DotFree(context) && color !in SlotsOf(context)
    ensures !IsSemanticColorPath(PropPath(Some(color), context, defaultSemantic))
  {
    assert PropPath(Some(color), context, defaultSemantic) == Qualify(context, color);
    OtherSlotRejected(context, color);
  }

  /** `migrateColorProp("main", 'frame', ...)` gives `frame.main`, which the
      guard rejects, although `main` itself migrates to `frame.primary`. */
  lemma MainPropNotAPath(defaultSemantic: string)
    ensures PropPath(Some("main"), "frame", defaultSemantic) == Qualify("frame", "main")
    ensures !IsSemanticColorPath(PropPath(Some("main"), "frame", defaultSemantic))
  {
    assert DotFree("main") && DotFree("frame");
    assert SlotsOf("frame") == FrameSlots;
    PropPathOutsideSchema("main", "frame", defaultSemantic);
  }

  /** On a conforming, populated mapping every deprecated name migrates at
      runtime, to the colour its first suggestion names. */
  lemma DeprecatedNameMigrates(s: SemanticColors, name: string)
    requires IsSemanticColors(s) && Populated(s) && name in ColorMigrationMap
    ensures |ColorMigrationMap[name]| > 0
    ensures var parts := Split(ColorMigrationMap[name][0]);
      |parts| == 2 && parts[0] in s && parts[1] in s[parts[0]]
      && RuntimeColor(name, SemanticValue(s)) == Some(s[parts[0]][parts[1]])
  {
    TableNamesBare();
    SuggestionsQualified();
    FirstSuggestionsListed();
    var first := ColorMigrationMap[name][0];
    RuntimeBareName(name, SemanticValue(s));
    ValidPathResolves(s, first);
  }

  // ---------------------------------------------------------------------
  // getSemanticColor
  // ---------------------------------------------------------------------

  /** `theme.colors.semantic.frame.primary`, the fallback colour: reading
      `primary` of a missing `frame` throws. */
  function FramePrimary(semantic: Value): (color: Outcome<Value>)
    ensures semantic.Obj? && "frame" in semantic.fields && semantic.fields["frame"].Obj? ==>
      color == Returned(Read(semantic.fields["frame"], "primary"))
    ensures Read(semantic, "frame") == Undefined ==> color == TypeErrorThrown
  {
    var frame := Read(semantic, "frame");
    if frame.Undefined? || frame.Null? then TypeErrorThrown else Returned(Read(frame, "primary"))
  }

  /** The console error `notice`, then the fallback colour. */
  function Fallback(semantic: Value, notice: Notice): Outcome<Logged<Value>> {
    match FramePrimary(semantic)
    case Returned(color) => Returned(Logged(color, [notice]))
    case TypeErrorThrown => TypeErrorThrown
  }

  /** What `getSemanticColor` gives: the value the path walks to, or the
      fallback after reporting the path as invalid. */
  function SemanticLookup(semantic: Value, path: string): Outcome<Logged<Value>> {
    match ReadPath(semantic, Split(path))
    case Some(found) => Returned(Logged(found, []))
    case None => Fallback(semantic, InvalidSemanticPath(path))
  }

  /** `getSemanticColor`: splits the path, walks the theme's semantic
      mapping, and falls back to the primary frame colour. */
  method GetSemanticColor(theme: Theme, path: string) returns (color: Outcome<Logged<Value>>)
    ensures color == SemanticLookup(SemanticValue(theme.colors.semantic), path)
  {
    var semantic := SemanticValue(theme.colors.semantic);
    var found := WalkPath(semantic, Split(path));
    if found.Some? {
      return Returned(Logged(found.value, []));
    }
    var frame := Read(semantic, "frame");
    if frame.Undefined? || frame.Null? {
      return TypeErrorThrown;
    }
    return Returned(Logged(Read(frame, "primary"), [InvalidSemanticPath(path)]));
  }

  /** On a conforming, populated mapping an accepted path gives its
      category's slot colour, with no console output. */
  lemma LookupValidPath(s: SemanticColors, path: string)
    requires IsSemanticColors(s) && Populated(s) && IsSemanticColorPath(path)
    ensures var parts := Split(path);
      |parts| == 2 && parts[0] in s && parts[1] in s[parts[0]]
      && SemanticLookup(SemanticValue(s), path) == Returned(Logged(Str(s[parts[0]][parts[1]]), []))
  {
    ValidPathResolves(s, path);
  }

  /** On a conforming mapping the lookup never throws: a path that does not
      resolve gives the primary frame colour and one invalid-path error. */
  lemma LookupFallback(s: SemanticColors, path: string)
    requires IsSemanticColors(s) && ReadPath(SemanticValue(s), Split(path)).None?
    ensures "frame" in s && "primary" in s["frame"]
    ensures SemanticLookup(SemanticValue(s), path) ==
      Returned(Logged(Str(s["frame"]["primary"]), [InvalidSemanticPath(path)]))
  {
    FramePresent(s);
  }

  /** On a mapping without `frame`, such as an empty custom variant, a path
      that does not resolve throws instead of falling back. */
  lemma LookupThrowsWithoutFrame(s: SemanticColors, path: string)
    requires "frame" !in s && ReadPath(SemanticValue(s), Split(path)).None?
    ensures SemanticLookup(SemanticValue(s), path) == TypeErrorThrown
  {
  }

  /** On the empty mapping every lookup throws. */
  lemma EmptyMappingThrows(path: string)
    ensures SemanticLookup(SemanticValue(map[]), path) == TypeErrorThrown
  {
    var parts := Split(path);
    assert Read(SemanticValue(map[]), parts[0]) == Undefined;
  }

  /** The resolver still reads the deprecated categories a mapping carries,
      although the path guard rejects them. */
  lemma LegacyPathsStillResolve(s: SemanticColors, slot: string)
    requires DotFree(slot) && "interface" in s && slot in s["interface"] && s["interface"][slot] != ""
    ensures SemanticLookup(SemanticValue(s), Qualify("interface", slot)) ==
      Returned(Logged(Str(s["interface"][slot]), []))
    ensures !IsSemanticColorPath(Qualify("interface", slot))
  {
    assert DotFree("interface");
    SplitQualified("interface", slot);
    SemanticWalk(s, "interface", slot);
    LegacyPathsRejected(slot);
  }

  // ---------------------------------------------------------------------
  // useSemanticColors
  // ---------------------------------------------------------------------

  /** What `useSemanticColors` gives: each key's path looked up on its own,
      unless one of the lookups throws. */
  function LookupAll(semantic: Value, paths: map<string, string>): Outcome<map<string, Value>> {
    if exists key | key in paths :: SemanticLookup(semantic, paths[key]).TypeErrorThrown? then TypeErrorThrown
    else Returned(map key | key in paths :: SemanticLookup(semantic, paths[key]).value.value)
  }

  /** None of the lookups of the keys in `done` throws. */
  predicate NoneThrow(semantic: Value, paths: map<string, string>, done: set<string>)
    requires done <= paths.Keys
  {
    forall key | key in done :: SemanticLookup(semantic, paths[key]).Returned?
  }

  /** The colours of the keys in `done`, each looked up on its own. */
  function LookedUp(semantic: Value, paths: map<string, string>, done: set<string>): map<string, Value>
    requires done <= paths.Keys && NoneThrow(semantic, paths, done)
  {
    map key | key in done :: SemanticLookup(semantic, paths[key]).value.value
  }

  /** One more key that does not throw adds its own colour and nothing else. */
  lemma LookUpOneMore(semantic: Value, paths: map<string, string>, done: set<string>, key: string)
    requires done <= paths.Keys && NoneThrow(semantic, paths, done)
    requires key in paths && SemanticLookup(semantic, paths[key]).Returned?
    ensures NoneThrow(semantic, paths, done + {key})
    ensures LookedUp(semantic, paths, done + {key}) ==
      LookedUp(semantic, paths, done)[key := SemanticLookup(semantic, paths[key]).value.value]
  {
  }

  /** When every key has been looked up without a throw, the lookups are
      the result. */
  lemma AllLookedUp(semantic: Value, paths: map<string, string>)
    requires NoneThrow(semantic, paths, paths.Keys)
    ensures LookupAll(semantic, paths) == Returned(LookedUp(semantic, paths, paths.Keys))
  {
  }

  /** `useSemanticColors`: `getSemanticColor` for every key, in no
      particular order. */
  method UseSemanticColors(theme: Theme, paths: map<string, string>) returns (colors: Outcome<map<string, Value>>)
    ensures colors == LookupAll(SemanticValue(theme.colors.semantic), paths)
  {
    var semantic := SemanticValue(theme.colors.semantic);
    var result: map<string, Value> := map[];
    var pending := paths.Keys;
    while pending != {}
      invariant pending <= paths.Keys
      invariant NoneThrow(semantic, paths, paths.Keys - pending)
      invariant result == LookedUp(semantic, paths, paths.Keys - pending)
      decreases pending
    {
      var key :| key in pending;
      var color := GetSemanticColor(theme, paths[key]);
      if color.TypeErrorThrown? {
        assert SemanticLookup(semantic, paths[key]).TypeErrorThrown?;
        return TypeErrorThrown;
      }
      var done := paths.Keys - pending;
      LookUpOneMore(semantic, paths, done, key);
      result := result[key := color.value.value];
      pending := pending - {key};
      assert paths.Keys - pending == done + {key};
    }
    assert paths.Keys - pending == paths.Keys;
    AllLookedUp(semantic, paths);
    return Returned(result);
  }

  /** On a conforming mapping the lookups never throw: every key gets the
      colour of its own path, so a path that does not resolve changes only
      its own entry, which becomes the primary frame colour. */
  lemma LookupAllEntries(s: SemanticColors, paths: map<string, string>)
    requires IsSemanticColors(s)
    ensures LookupAll(SemanticValue(s), paths).Returned?
    ensures LookupAll(SemanticValue(s), paths).value.Keys == paths.Keys
    ensures forall key | key in paths ::
      SemanticLookup(SemanticValue(s), paths[key]).Returned?
      && LookupAll(SemanticValue(s), paths).value[key] == SemanticLookup(SemanticValue(s), paths[key]).value.value
    ensures "frame" in s && "primary" in s["frame"]
    ensures forall key | key in paths && ReadPath(SemanticValue(s), Split(paths[key])).None? ::
      LookupAll(SemanticValue(s), paths).value[key] == Str(s["frame"]["primary"])
  {
    FramePresent(s);
  }

  /** Every accepted path resolves, without fallback and without console
      output, on the mapping of every variant the registry hands out. */
  lemma RegisteredVariantsResolve(variant: string, path: string)
    requires IsSemanticColorPath(path)
    ensures var s := GetThemeVariant(variant).semantic;
      var parts := Split(path);
      |parts| == 2 && parts[0] in s && parts[1] in s[parts[0]]
      && SemanticLookup(SemanticValue(s), path) == Returned(Logged(Str(s[parts[0]][parts[1]]), []))
  {
    LookupValidPath(GetThemeVariant(variant).semantic, path);
  }

  // ---------------------------------------------------------------------
  // useSemanticColor
  // ---------------------------------------------------------------------

  /** A bare name the hook reports as deprecated: a legacy name or a name
      of the theme's palette. */
  predicate WarnsDeprecation(theme: Theme, path: string) {
    !HasDot(path) && (path in LegacyColorNames || path in theme.colors.lcars)
  }

  /** What `useSemanticColor` gives: a dotted path as `getSemanticColor`
      does; a deprecated name through its runtime migration when that finds
      a colour; then the flattened accessor; then the fallback after an
      unknown-colour error. */
  function ColorLookup(theme: Theme, path: string): Outcome<Logged<Value>> {
    var semantic := SemanticValue(theme.colors.semantic);
    if HasDot(path) then SemanticLookup(semantic, path)
    else
      var migrated := if WarnsDeprecation(theme, path) then RuntimeColor(path, semantic) else None;
      if migrated.Some? && migrated.value != "" then Returned(Logged(Str(migrated.value), []))
      else if path in theme.color then Returned(Logged(Str(theme.color[path]), []))
      else Fallback(semantic, UnknownColor(path))
  }

  /** `useSemanticColor`. A deprecated name is reported (once per name and
      component) before it is migrated. */
  method UseSemanticColor(log: DeprecationLog, theme: Theme, path: string, componentName: string)
    returns (color: Outcome<Logged<Value>>)
    requires log.Valid()
    modifies log
    ensures log.Valid()
    ensures color == ColorLookup(theme, path)
    ensures !WarnsDeprecation(theme, path) ==> log.warned == old(log.warned) && log.notices == old(log.notices)
    ensures WarnsDeprecation(theme, path) ==>
      var key := WarningKey(path, componentName);
      log.warned == old(log.warned) + {key}
      && (key in old(log.warned) ==> log.notices == old(log.notices))
      && (key !in old(log.warned) ==>
            log.notices == old(log.notices) + [DeprecatedColor(path, componentName, Alternatives(path, None))])
  {
    if HasDot(path) {
      color := GetSemanticColor(theme, path);
      return;
    }
    var semantic := SemanticValue(theme.colors.semantic);
    var isLegacy := path in LegacyColorNames;
    var isAppearanceBased := path in theme.colors.lcars;
    if isLegacy || isAppearanceBased {
      log.LogColorDeprecation(path, componentName, None);
      var migrated := MigrateColorAtRuntime(path, semantic);
      if migrated.Some? && migrated.value != "" {
        return Returned(Logged(Str(migrated.value), []));
      }
    }
    if path in theme.color {
      return Returned(Logged(Str(theme.color[path]), []));
    }
    var frame := Read(semantic, "frame");
    if frame.Undefined? || frame.Null? {
      return TypeErrorThrown;
    }
    return Returned(Logged(Read(frame, "primary"), [UnknownColor(path)]));
  }

  /** On a conforming, populated mapping a deprecated name the hook warns
      about resolves through the mapping, to the colour of its first
      suggestion, and never through the palette. */
  lemma DeprecatedNameUsesMapping(theme: Theme, name: string)
    requires IsSemanticColors(theme.colors.semantic) && Populated(theme.colors.semantic)
    requires name in ColorMigrationMap && (name in LegacyColorNames || name in theme.colors.lcars)
    ensures var s := theme.colors.semantic;
      var parts := Split(ColorMigrationMap[name][0]);
      |parts| == 2 && parts[0] in s && parts[1] in s[parts[0]]
      && ColorLookup(theme, name) == Returned(Logged(Str(s[parts[0]][parts[1]]), []))
  {
    DeprecatedNameMigrates(theme.colors.semantic, name);
    TableNamesBare();
  }

  /** A bare name outside the migration table is read from the flattened
      accessor when it is there, and otherwise reported as unknown before
      the fallback. */
  lemma UnmappedNameUsesAccessor(theme: Theme, name: string)
    requires !HasDot(name) && name !in ColorMigrationMap
    ensures name in theme.color ==> ColorLookup(theme, name) == Returned(Logged(Str(theme.color[name]), []))
    ensures name !in theme.color ==>
      ColorLookup(theme, name) == Fallback(SemanticValue(theme.colors.semantic), UnknownColor(name))
  {
    var semantic := SemanticValue(theme.colors.semantic);
    RuntimeBareName(name, semantic);
    assert (if WarnsDeprecation(theme, name) then RuntimeColor(name, semantic) else None) == None;
  }

  lemma MainFirstSuggestion()
    ensures "main" in ColorMigrationMap && |ColorMigrationMap["main"]| > 0
    ensures ColorMigrationMap["main"][0] == Qualify("frame", "primary")
  {
  }

  lemma Alt1FirstSuggestion()
    ensures "alt1" in ColorMigrationMap && |ColorMigrationMap["alt1"]| > 0
    ensures ColorMigrationMap["alt1"][0] == Qualify("frame", "accent")
  {
  }

  lemma Alt2FirstSuggestion()
    ensures "alt2" in ColorMigrationMap && |ColorMigrationMap["alt2"]| > 0
    ensures ColorMigrationMap["alt2"][0] == Qualify("frame", "secondary")
  {
  }

  /** A legacy name whose first suggestion is a frame slot resolves to that
      slot of a conforming, populated mapping. */
  lemma LegacyNameReadsFrame(theme: Theme, name: string, slot: string)
    requires IsSemanticColors(theme.colors.semantic) && Populated(theme.colors.semantic)
    requires name in LegacyColorNames && name in ColorMigrationMap && DotFree(slot)
    requires |ColorMigrationMap[name]| > 0 && ColorMigrationMap[name][0] == Qualify("frame", slot)
    ensures "frame" in theme.colors.semantic && slot in theme.colors.semantic["frame"]
    ensures ColorLookup(theme, name) == Returned(Logged(Str(theme.colors.semantic["frame"][slot]), []))
  {
    assert DotFree("frame");
    SplitQualified("frame", slot);
    DeprecatedNameUsesMapping(theme, name);
  }

  /** On a theme composed like the default theme, the hook resolves the
      legacy names to the theme's own legacy fields: `main`, `alt1` and
      `alt2` agree with `colors.main`, `colors.alt1` and `colors.alt2`. */
  lemma HookAgreesWithLegacyFields(s: SemanticColors, palette: map<string, string>)
    requires IsSemanticColors(s) && Populated(s)
    ensures var t := Compose(s, palette);
      ColorLookup(t, "main") == Returned(Logged(Str(t.colors.main), []))
      && ColorLookup(t, "alt1") == Returned(Logged(Str(t.colors.alt1), []))
      && ColorLookup(t, "alt2") == Returned(Logged(Str(t.colors.alt2), []))
  {
    var t := Compose(s, palette);
    ComposedVariant(s, palette);
    LegacyBindings(s, palette);
    assert DotFree("primary") && DotFree("accent") && DotFree("secondary");
    MainFirstSuggestion();
    Alt1FirstSuggestion();
    Alt2FirstSuggestion();
    LegacyNameReadsFrame(t, "main", "primary");
    LegacyNameReadsFrame(t, "alt1", "accent");
    LegacyNameReadsFrame(t, "alt2", "secondary");
  }
}
