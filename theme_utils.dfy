/**
  The LCARS palette and the colour accessor that predates semantic colours.
 */
module ThemeUtils {
  import opened ThemeTypes

  /** The core Voyager colours. */
  const CorePalette: map<string, string> := map[
    "orange" := "#FF9900",
    "mango" := "#FF9966",
    "lilac" := "#CC99CC",
    "purple" := "#CC6699",
    "brick" := "#CC6666",
    "naples" := "#FFCC99",
    "paleBlue" := "#9999CC",
    "skyBlue" := "#9999FF",
    "bigBlue" := "#6666FF",
    "gray" := "#999999"
  ]

  /** The extended palette. */
  const ExtendedPalette: map<string, string> := map[
    "evening" := "#2255FF",
    "midnight" := "#1111EE",
    "cool" := "#5588FF",
    "honey" := "#FFCC99",
    "cardinal" := "#CC2233",
    "tangerine" := "#FF8833",
    "green" := "#33CC99",
    "galaxy" := "#444A77",
    "ghost" := "#88BBFF",
    "moonshine" := "#DDEEFF",
    "wheat" := "#CCAA88",
    "roseblush" := "#CC6666"
  ]

  /** The additional LCARS colours. */
  const AdditionalPalette: map<string, string> := map[
    "mars" := "#FF2200",
    "martian" := "#FFAA00",
    "ice" := "#BBCCFF",
    "gold" := "#FFBB00",
    "peach" := "#FFBB99",
    "butterscotch" := "#FFAA77",
    "tomato" := "#FF5555",
    "violet" := "#9944FF",
    "african-violet" := "#CC99FF",
    "almond" := "#FF9966",
    "almond-creme" := "#FFDDBB",
    "bluey" := "#33BBFF",
    "sky" := "#AACCFF",
    "sunflower" := "#FFCC00",
    "magenta" := "#CC4499",
    "violet-creme" := "#FF99CC",
    "space-white" := "#FFEEDD",
    "goldfinch" := "#FFBB00",
    "camel" := "#CC9966",
    "candlelight" := "#FFEEAA",
    "evening-shade" := "#1155CC",
    "dandelion" := "#FFDD00",
    "gold-pressed-latinum" := "#FFFF99",
    "rust" := "#BB4411",
    "tamarillo" := "#CC4444",
    "twilight" := "#2244AA",
    "ocean" := "#0055BB",
    "pacific" := "#0088FF",
    "pumpkin" := "#FF8800",
    "sage" := "#7788CC",
    "sandy-desert" := "#EEAA66",
    "text-block" := "#889977",
    "viol" := "#9977AA",
    "wisteria" := "#9999FF"
  ]

  /** The whole palette, `lcarsColors`. */
  const Palette: map<string, string> := CorePalette + ExtendedPalette + AdditionalPalette

  // The three groups declare disjoint names, so the whole palette agrees
  // with each group on that group's names. Telling the names apart by their
  // length and first and last letters keeps the argument small.

  /** Length, first and last character of a name. */
  function Signature(name: string): (int, char, char) {
    if name == [] then (0, ' ', ' ') else (|name|, name[0], name[|name| - 1])
  }

  const CoreSignatures: set<(int, char, char)> :=
    {(4, 'g', 'y'), (5, 'b', 'k'), (5, 'l', 'c'), (5, 'm', 'o'), (6, 'n', 's'),
      (6, 'o', 'e'), (6, 'p', 'e'), (7, 'b', 'e'), (7, 's', 'e'), (8, 'p', 'e')}
  const ExtendedSignatures: set<(int, char, char)> :=
    {(4, 'c', 'l'), (5, 'g', 'n'), (5, 'g', 't'), (5, 'h', 'y'), (5, 'w', 't'),
      (6, 'g', 'y'), (7, 'e', 'g'), (8, 'c', 'l'), (8, 'm', 't'), (9, 'm', 'e'),
      (9, 'r', 'h'), (9, 't', 'e')}
  const AdditionalSignatures: set<(int, char, char)> :=
    {(3, 'i', 'e'), (3, 's', 'y'), (4, 'g', 'd'), (4, 'm', 's'), (4, 'r', 't'),
      (4, 's', 'e'), (4, 'v', 'l'), (5, 'b', 'y'), (5, 'c', 'l'), (5, 'o', 'n'),
      (5, 'p', 'h'), (6, 'a', 'd'), (6, 't', 'o'), (6, 'v', 't'), (7, 'm', 'a'),
      (7, 'm', 'n'), (7, 'p', 'c'), (7, 'p', 'n'), (8, 't', 't'), (8, 'w', 'a'),
      (9, 'd', 'n'), (9, 'g', 'h'), (9, 's', 'r'), (9, 't', 'o'), (10, 't', 'k'),
      (11, 'c', 't'), (11, 's', 'e'), (12, 'a', 'e'), (12, 'b', 'h'), (12, 's', 't'),
      (12, 'v', 'e'), (13, 'e', 'e'), (14, 'a', 't'), (20, 'g', 'm')}

  lemma CoreSigned() ensures forall n | n in CorePalette :: Signature(n) in CoreSignatures { }
  lemma ExtendedSigned() ensures forall n | n in ExtendedPalette :: Signature(n) in ExtendedSignatures { }
  lemma AdditionalSigned() ensures forall n | n in AdditionalPalette :: Signature(n) in AdditionalSignatures { }

  lemma CoreExtendedApart() ensures CoreSignatures !! ExtendedSignatures { }
  lemma CoreAdditionalApart() ensures CoreSignatures !! AdditionalSignatures { }
  lemma ExtendedAdditionalApart() ensures ExtendedSignatures !! AdditionalSignatures { }

  /** The groups share no name. */
  lemma GroupsDisjoint()
    ensures forall n | n in CorePalette :: n !in ExtendedPalette && n !in AdditionalPalette
    ensures forall n | n in ExtendedPalette :: n !in AdditionalPalette
  {
    CoreSigned();
    ExtendedSigned();
    AdditionalSigned();
    CoreExtendedApart();
    CoreAdditionalApart();
    ExtendedAdditionalApart();
    forall n | n in CorePalette
      ensures n !in ExtendedPalette && n !in AdditionalPalette
    {
      assert Signature(n) in CoreSignatures;
    }
    forall n | n in ExtendedPalette
      ensures n !in AdditionalPalette
    {
      assert Signature(n) in ExtendedSignatures;
    }
  }

  /** Looking a name up in the palette gives the colour its group declares. */
  lemma PaletteLookup(name: string)
    ensures name in Palette <==>
      name in CorePalette || name in ExtendedPalette || name in AdditionalPalette
    ensures name in CorePalette ==> Palette[name] == CorePalette[name]
    ensures name in ExtendedPalette ==> Palette[name] == ExtendedPalette[name]
    ensures name in AdditionalPalette ==> Palette[name] == AdditionalPalette[name]
  {
    GroupsDisjoint();
  }

  /** The palette defines exactly the LCARS colour names. */
  lemma PaletteNames()
    ensures Palette.Keys == LcarsColorNames
  {
    CoreNames();
    ExtendedNames();
    AdditionalNames();
  }

  lemma CoreNames() ensures CorePalette.Keys == CoreColorNames { }
  lemma ExtendedNames() ensures ExtendedPalette.Keys == ExtendedColorNames { }
  lemma AdditionalNames() ensures AdditionalPalette.Keys == AdditionalColorNames { }

  /** Every palette colour is written as `#RRGGBB`. */
  lemma PaletteIsHex()
    ensures forall n | n in Palette :: IsHexColor(Palette[n])
  {
    CoreIsHex();
    ExtendedIsHex();
    AdditionalIsHex();
  }

  lemma CoreIsHex() ensures forall n | n in CorePalette :: IsHexColor(CorePalette[n]) { }
  lemma ExtendedIsHex() ensures forall n | n in ExtendedPalette :: IsHexColor(ExtendedPalette[n]) { }
  lemma AdditionalIsHex() ensures forall n | n in AdditionalPalette :: IsHexColor(AdditionalPalette[n]) { }

  /** The palette is not one-to-one: different names share a colour, so a
      colour value does not identify its name. */
  lemma PaletteAliases()
    ensures "naples" in Palette && "honey" in Palette && Palette["naples"] == Palette["honey"] == "#FFCC99"
    ensures "mango" in Palette && "almond" in Palette && Palette["mango"] == Palette["almond"] == "#FF9966"
    ensures "gold" in Palette && "goldfinch" in Palette && Palette["gold"] == Palette["goldfinch"] == "#FFBB00"
    ensures "skyBlue" in Palette && "wisteria" in Palette && Palette["skyBlue"] == Palette["wisteria"] == "#9999FF"
  {
    NaplesIsHoney();
    MangoIsAlmond();
    GoldIsGoldfinch();
    SkyBlueIsWisteria();
  }

  lemma NaplesIsHoney()
    ensures "naples" in Palette && "honey" in Palette && Palette["naples"] == Palette["honey"] == "#FFCC99"
  {
    NaplesColor();
    HoneyColor();
  }

  lemma MangoIsAlmond()
    ensures "mango" in Palette && "almond" in Palette && Palette["mango"] == Palette["almond"] == "#FF9966"
  {
    MangoColor();
    AlmondColor();
  }

  lemma GoldIsGoldfinch()
    ensures "gold" in Palette && "goldfinch" in Palette && Palette["gold"] == Palette["goldfinch"] == "#FFBB00"
  {
    GoldColor();
    GoldfinchColor();
  }

  lemma SkyBlueIsWisteria()
    ensures "skyBlue" in Palette && "wisteria" in Palette && Palette["skyBlue"] == Palette["wisteria"] == "#9999FF"
  {
    SkyBlueColor();
    WisteriaColor();
  }

  // One palette entry at a time: first in its group, then in the palette.

  lemma NaplesColor() ensures "naples" in Palette && Palette["naples"] == "#FFCC99" { NaplesDeclared(); CoreColor("naples", "#FFCC99"); }
  lemma NaplesDeclared() ensures "naples" in CorePalette && CorePalette["naples"] == "#FFCC99" { }
  lemma HoneyColor() ensures "honey" in Palette && Palette["honey"] == "#FFCC99" { HoneyDeclared(); ExtendedColor("honey", "#FFCC99"); }
  lemma HoneyDeclared() ensures "honey" in ExtendedPalette && ExtendedPalette["honey"] == "#FFCC99" { }
  lemma MangoColor() ensures "mango" in Palette && Palette["mango"] == "#FF9966" { MangoDeclared(); CoreColor("mango", "#FF9966"); }
  lemma MangoDeclared() ensures "mango" in CorePalette && CorePalette["mango"] == "#FF9966" { }
  lemma AlmondColor() ensures "almond" in Palette && Palette["almond"] == "#FF9966" { AlmondDeclared(); AdditionalColor("almond", "#FF9966"); }
  lemma AlmondDeclared() ensures "almond" in AdditionalPalette && AdditionalPalette["almond"] == "#FF9966" { }
  lemma GoldColor() ensures "gold" in Palette && Palette["gold"] == "#FFBB00" { GoldDeclared(); AdditionalColor("gold", "#FFBB00"); }
  lemma GoldDeclared() ensures "gold" in AdditionalPalette && AdditionalPalette["gold"] == "#FFBB00" { }
  lemma GoldfinchColor() ensures "goldfinch" in Palette && Palette["goldfinch"] == "#FFBB00" { GoldfinchDeclared(); AdditionalColor("goldfinch", "#FFBB00"); }
  lemma GoldfinchDeclared() ensures "goldfinch" in AdditionalPalette && AdditionalPalette["goldfinch"] == "#FFBB00" { }
  lemma SkyBlueColor() ensures "skyBlue" in Palette && Palette["skyBlue"] == "#9999FF" { SkyBlueDeclared(); CoreColor("skyBlue", "#9999FF"); }
  lemma SkyBlueDeclared() ensures "skyBlue" in CorePalette && CorePalette["skyBlue"] == "#9999FF" { }
  lemma WisteriaColor() ensures "wisteria" in Palette && Palette["wisteria"] == "#9999FF" { WisteriaDeclared(); AdditionalColor("wisteria", "#9999FF"); }
  lemma WisteriaDeclared() ensures "wisteria" in AdditionalPalette && AdditionalPalette["wisteria"] == "#9999FF" { }

  /** A colour a group declares for a name is the palette's colour for it. */
  lemma CoreColor(name: string, color: string)
    requires name in CorePalette && CorePalette[name] == color
    ensures name in Palette && Palette[name] == color
  {
    PaletteLookup(name);
  }

  lemma ExtendedColor(name: string, color: string)
    requires name in ExtendedPalette && ExtendedPalette[name] == color
    ensures name in Palette && Palette[name] == color
  {
    PaletteLookup(name);
  }

  lemma AdditionalColor(name: string, color: string)
    requires name in AdditionalPalette && AdditionalPalette[name] == color
    ensures name in Palette && Palette[name] == color
  {
    PaletteLookup(name);
  }

  /** `lcarsColors[name]` for a palette name: always defined, and always a
      `#RRGGBB` palette colour. */
  function Lcars(name: string): (color: string)
    requires name in LcarsColorNames
    ensures name in Palette && color == Palette[name]
    ensures color in Palette.Values && IsHexColor(color)
  {
    PaletteNames();
    PaletteIsHex();
    Palette[name]
  }

  /** `getThemeColor`: the legacy names `main`, `alt1` and `alt2` are
      answered first from the theme's legacy fields; any other name is looked
      up in the theme's palette; a name found in neither falls back to the
      main colour with one warning. It never fails. */
  function GetThemeColor(theme: Theme, color: string): (r: Logged<string>)
    ensures color == "main" ==> r == Logged(theme.colors.main, [])
    ensures color == "alt1" ==> r == Logged(theme.colors.alt1, [])
    ensures color == "alt2" ==> r == Logged(theme.colors.alt2, [])
    ensures color !in LegacyColorNames && color in theme.colors.lcars ==>
      r == Logged(theme.colors.lcars[color], [])
    ensures r.notices != [] <==> color !in LegacyColorNames && color !in theme.colors.lcars
    ensures r.notices != [] ==> r == Logged(theme.colors.main, [UnknownThemeColor(color)])
    ensures r.value in {theme.colors.main, theme.colors.alt1, theme.colors.alt2}
      || r.value in theme.colors.lcars.Values
  {
    if color == "main" then Logged(theme.colors.main, [])
    else if color == "alt1" then Logged(theme.colors.alt1, [])
    else if color == "alt2" then Logged(theme.colors.alt2, [])
    else if color in theme.colors.lcars then Logged(theme.colors.lcars[color], [])
    else Logged(theme.colors.main, [UnknownThemeColor(color)])
  }
}
