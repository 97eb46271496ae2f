/**
  `deepMerge`, which lays a partial custom theme over a base theme, and the
  choice `ThemeProvider` makes between the base theme and the merge.

  Themes are handled here as JavaScript values: the merge walks any object
  tree, whatever keys it has. Plain objects in the source are merged key by
  key into the corresponding target value; every other source value except
  `undefined` replaces the target value outright; `undefined` changes
  nothing. The target itself is never changed: the result starts as a copy.
 */
module ThemeMerge {
  import opened JsRuntime

  /** `typeof v === 'object'`: true for `null`, arrays and objects. */
  predicate TypeofObject(v: Value) {
    v.Null? || v.Arr? || v.Obj?
  }

  /** The test that sends a source value into a recursive merge:
      `v && typeof v === 'object' && !Array.isArray(v)`. */
  predicate MergesRecursively(v: Value) {
    Truthy(v) && TypeofObject(v) && !v.Arr?
  }

  /** Exactly the objects are merged recursively: `null` is falsy and arrays
      are excluded. */
  lemma MergesRecursivelyIffObject(v: Value)
    ensures MergesRecursively(v) <==> v.Obj?
  {
  }

  /** The value `result[key]` ends up holding, given its value `current`
      before the source key is visited and the source's value `incoming`. */
  function Assign(current: Value, incoming: Value): Value
    decreases incoming, 2
  {
    if MergesRecursively(incoming) then Obj(Merged(current, incoming))
    else if incoming != Undefined then incoming
    else current
  }

  /** The merge after the source keys in `done` have been visited: the copy
      of the target, with each visited key reassigned by `Assign`, and a
      visited key absent from the target left absent when its source value
      is `undefined`. */
  function MergedOver(target: Value, source: Value, done: set<string>): map<string, Value>
    requires source.Obj? && done <= source.fields.Keys
    decreases source, 0
  {
    var base := Spread(target);
    map key | key in base.Keys + done && (key in base || source.fields[key] != Undefined) ::
      if key in done then Assign(Read(target, key), source.fields[key]) else base[key]
  }

  /** `deepMerge(target, source)` as a value: every source key visited. */
  function Merged(target: Value, source: Value): map<string, Value>
    requires source.Obj?
    decreases source, 1
  {
    MergedOver(target, source, source.fields.Keys)
  }

  /** `deepMerge`: copies the target's own properties, then visits the
      source's keys one at a time, merging objects recursively and letting
      any other defined value replace the old one. The keys are visited in
      no particular order: each is visited once and touches only its own
      entry. */
  method DeepMerge(target: Value, source: Value) returns (result: map<string, Value>)
    requires source.Obj?
    ensures result == Merged(target, source)
    decreases source
  {
    result := Spread(target);
    var pending := source.fields.Keys;
    while pending != {}
      invariant pending <= source.fields.Keys
      invariant result == MergedOver(target, source, source.fields.Keys - pending)
      decreases pending
    {
      var key :| key in pending;
      var done := source.fields.Keys - pending;
      var incoming := source.fields[key];
      var current := if key in result then result[key] else Undefined;
      assert current == Read(target, key);
      if MergesRecursively(incoming) {
        var merged := DeepMerge(current, incoming);
        result := result[key := Obj(merged)];
      } else if incoming != Undefined {
        result := result[key := incoming];
      }
      VisitOne(target, source, done, key);
      pending := pending - {key};
      assert source.fields.Keys - pending == done + {key};
    }
    assert source.fields.Keys - pending == source.fields.Keys;
  }

  /** Visiting one more key changes at most that key's entry, and changes
      it to what `Assign` gives. */
  lemma VisitOne(target: Value, source: Value, done: set<string>, key: string)
    requires source.Obj? && done <= source.fields.Keys
    requires key in source.fields && key !in done
    ensures var before := MergedOver(target, source, done);
      var incoming := source.fields[key];
      MergedOver(target, source, done + {key}) ==
        if incoming == Undefined then before
        else before[key := Assign(Read(target, key), incoming)]
  {
  }

  // ---------------------------------------------------------------------
  // What the merge does to each key.
  // ---------------------------------------------------------------------

  /** One entry of the merge: present when the target has the key or the
      source gives it a defined value; reassigned by `Assign` when the
      source has the key, copied from the target otherwise. */
  lemma MergedEntry(target: Value, source: Value, key: string)
    requires source.Obj?
    ensures key in Merged(target, source) <==>
      key in Spread(target) || (key in source.fields && source.fields[key] != Undefined)
    ensures key in Merged(target, source) ==>
      Merged(target, source)[key] ==
        (if key in source.fields then Assign(Read(target, key), source.fields[key]) else Spread(target)[key])
  {
    assert Merged(target, source) == MergedOver(target, source, source.fields.Keys);
  }

  /** The merge has the target's keys and the source's keys whose value is
      defined, and no other. */
  lemma MergedKeys(target: Value, source: Value)
    requires source.Obj?
    ensures Merged(target, source).Keys ==
      Spread(target).Keys + (set key | key in source.fields && source.fields[key] != Undefined)
  {
    assert Merged(target, source) == MergedOver(target, source, source.fields.Keys);
  }

  /** A target key the source does not mention keeps its value. */
  lemma KeepsAbsent(target: Value, source: Value, key: string)
    requires source.Obj? && key in Spread(target) && key !in source.fields
    ensures key in Merged(target, source) && Merged(target, source)[key] == Spread(target)[key]
  {
    MergedEntry(target, source, key);
  }

  /** A source object is merged into the target's value at that key, so the
      target's other entries there survive. */
  lemma MergesObjects(target: Value, source: Value, key: string)
    requires source.Obj? && key in source.fields && source.fields[key].Obj?
    ensures key in Merged(target, source)
    ensures Merged(target, source)[key] == Obj(Merged(Read(target, key), source.fields[key]))
    ensures forall inner | inner in Spread(Read(target, key)) && inner !in source.fields[key].fields ::
      inner in Merged(target, source)[key].fields
      && Merged(target, source)[key].fields[inner] == Spread(Read(target, key))[inner]
  {
    MergedEntry(target, source, key);
    forall inner | inner in Spread(Read(target, key)) && inner !in source.fields[key].fields
      ensures inner in Merged(target, source)[key].fields
      ensures Merged(target, source)[key].fields[inner] == Spread(Read(target, key))[inner]
    {
      KeepsAbsent(Read(target, key), source.fields[key], inner);
    }
  }

  /** Any other defined source value (an array, a string, a number, a
      boolean or `null`) replaces the target's value outright. */
  lemma Replaces(target: Value, source: Value, key: string)
    requires source.Obj? && key in source.fields
    requires !source.fields[key].Obj? && source.fields[key] != Undefined
    ensures key in Merged(target, source) && Merged(target, source)[key] == source.fields[key]
  {
    MergedEntry(target, source, key);
  }

  /** An `undefined` source value leaves the target's entry as it was,
      present or absent. */
  lemma UndefinedKeeps(target: Value, source: Value, key: string)
    requires source.Obj? && key in source.fields && source.fields[key] == Undefined
    ensures key in Merged(target, source) <==> key in Spread(target)
    ensures key in Spread(target) ==> Merged(target, source)[key] == Spread(target)[key]
  {
    MergedEntry(target, source, key);
  }

  /** Merging in an empty object gives a copy of the target. */
  lemma MergeEmpty(target: Value)
    ensures Merged(target, Obj(map[])) == Spread(target)
  {
    MergedKeys(target, Obj(map[]));
    forall key | key in Spread(target)
      ensures Merged(target, Obj(map[]))[key] == Spread(target)[key]
    {
      MergedEntry(target, Obj(map[]), key);
    }
  }

  /** Merging the same source twice is the same as merging it once. */
  lemma {:induction false} MergeIdempotent(target: Value, source: Value)
    requires source.Obj?
    ensures Merged(Obj(Merged(target, source)), source) == Merged(target, source)
    decreases source
  {
    var once := Merged(target, source);
    var twice := Merged(Obj(once), source);
    MergedKeys(target, source);
    MergedKeys(Obj(once), source);
    assert twice.Keys == once.Keys;
    forall key | key in once
      ensures twice[key] == once[key]
    {
      MergedEntry(target, source, key);
      MergedEntry(Obj(once), source, key);
      if key in source.fields && source.fields[key].Obj? {
        MergeIdempotent(Read(target, key), source.fields[key]);
      }
    }
  }

  // ---------------------------------------------------------------------
  // ThemeProvider.
  // ---------------------------------------------------------------------

  /** The theme `ThemeProvider` passes down: the base theme itself when no
      custom theme is given, otherwise the base with the custom theme merged
      in. A custom theme is an object or `undefined`. */
  function ProvidedTheme(base: Value, custom: Value): (theme: Value)
    requires custom.Undefined? || custom.Obj?
  {
    if Truthy(custom) then Obj(Merged(base, custom)) else base
  }

  /** Without a custom theme the base is used unchanged; with one, the
      merge; and an empty custom theme gives back an object base as it was. */
  lemma ProvidedThemeChoice(base: Value, custom: Value)
    requires custom.Undefined? || custom.Obj?
    ensures custom.Undefined? ==> ProvidedTheme(base, custom) == base
    ensures custom.Obj? ==> ProvidedTheme(base, custom) == Obj(Merged(base, custom))
    ensures base.Obj? && custom == Obj(map[]) ==> ProvidedTheme(base, custom) == base
  {
    if base.Obj? && custom == Obj(map[]) {
      MergeEmpty(base);
    }
  }
}
