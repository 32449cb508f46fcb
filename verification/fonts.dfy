/** The font registry: a name-to-font dictionary that starts with the built-in
    Arial and is extended, when the fonts bundle has loaded, with every entry
    of the fixed font table that has a bundle path and whose asset loaded.
    Whether LoadAsset finds a font at a path is the load oracle. */
module Fonts {
  import opened Wrappers
  import opened Overlay

  /** The font table, in declaration order: a name and its asset path (Arial has none). */
  const FontTable: seq<(string, Option<string>)> := [
    ("Arial", None),
    ("Amalia", Some("Assets/VAMFonts/amalia.ttf")),
    ("AnimeAceBB", Some("Assets/VAMFonts/animeacebb_reg.ttf")),
    ("AsteraV2", Some("Assets/VAMFonts/astera_v2.ttf")),
    ("BebasRegular", Some("Assets/VAMFonts/bebas_regular.ttf")),
    ("BirdsOfParadise", Some("Assets/VAMFonts/birds_of_paradise.ttf")),
    ("GlitchInside", Some("Assets/VAMFonts/glitch_inside.otf")),
    ("GosmickSans", Some("Assets/VAMFonts/gosmick_sans.ttf")),
    ("HomerSimpsonRevised", Some("Assets/VAMFonts/homer_simpson_revised.ttf")),
    ("KionaRegular", Some("Assets/VAMFonts/kiona_regular.ttf")),
    ("OptimusPrinceps", Some("Assets/VAMFonts/optimus_princeps.ttf")),
    ("Oswald", Some("Assets/VAMFonts/oswald.ttf")),
    ("PlanetKosmos", Some("Assets/VAMFonts/planet_kosmos.ttf")),
    ("Poppins", Some("Assets/VAMFonts/poppins.ttf")),
    ("SpaceAge", Some("Assets/VAMFonts/space_age.ttf"))
  ]

  type FontEntries = seq<(string, Option<string>)>

  type Registry = map<string, Font>

  const InitialRegistry: Registry := map["Arial" := BuiltinArial]

  function Names(t: FontEntries): (names: seq<string>)
    ensures |names| == |t| && forall i :: 0 <= i < |t| ==> names[i] == t[i].0
  {
    if t == [] then [] else [t[0].0] + Names(t[1..])
  }

  /** The names both font choosers offer, the first ("Arial") being their default. */
  const FontChoices: seq<string> := Names(FontTable)

  ghost const FontKeys: set<string> := set i | 0 <= i < |FontTable| :: FontTable[i].0

  /** A table's name list holds exactly its names. */
  lemma NamesAreKeys(t: FontEntries)
    ensures forall n :: n in Names(t) <==> n in (set i | 0 <= i < |t| :: t[i].0)
  {
  }

  /** The choosers offer exactly the table's names. */
  lemma FontChoicesAreFontKeys()
    ensures forall n :: n in FontChoices <==> n in FontKeys
  {
    NamesAreKeys(FontTable);
  }

  /** No name occurs twice (the table is a dictionary). */
  ghost predicate KeysDistinct(t: FontEntries) {
    forall i, j :: 0 <= i < j < |t| ==> t[i].0 != t[j].0
  }

  predicate LoadsAt(t: FontEntries, i: nat, load: string -> bool)
    requires i < |t|
  {
    t[i].1.Some? && load(t[i].1.value)
  }

  /** The names whose path is present and whose asset loaded. */
  ghost function LoadedKeys(t: FontEntries, load: string -> bool): set<string> {
    set i | 0 <= i < |t| && LoadsAt(t, i, load) :: t[i].0
  }

  /** ChangeSubtitlesFont: the dictionary indexer throws on a name the registry lacks. */
  function ChangeSubtitlesFont(o: Overlays, reg: Registry, name: string): (r: Result<Overlays>)
    ensures o.subtitles.None? ==> r == Success(o)
    ensures o.subtitles.Some? ==> (r.Failure? <==> name !in reg)
    ensures r.Failure? ==> r.error == KeyNotFound(name)
    ensures o.subtitles.Some? && name in reg ==> r == Success(o.(subtitles := Some(o.subtitles.value.(font := reg[name]))))
  {
    if o.subtitles.None? then Success(o)
    else if name !in reg then Failure(KeyNotFound(name))
    else Success(o.(subtitles := Some(o.subtitles.value.(font := reg[name]))))
  }

  /** The bundle callback's loop over the table: skip entries without a path or whose asset did
      not load, Add the others (Add throws on a name already present), and re-apply the font
      when the entry's name equals reapply. */
  function AddBundledFonts(t: FontEntries, reg: Registry, o: Overlays, reapply: string, load: string -> bool): Result<(Registry, Overlays)>
    decreases |t|
  {
    if t == [] then Success((reg, o))
    else
      var key := t[0].0;
      var path := t[0].1;
      if path.None? || !load(path.value) then AddBundledFonts(t[1..], reg, o, reapply, load)
      else if key in reg then Failure(DuplicateKey(key))
      else
        var reg' := reg[key := BundledFont(path.value)];
        var o' :- if reapply == key then ChangeSubtitlesFont(o, reg', key) else Success(o);
        AddBundledFonts(t[1..], reg', o', reapply, load)
  }

  lemma LoadedKeysCons(t: FontEntries, load: string -> bool)
    requires t != []
    ensures LoadedKeys(t, load) == (if LoadsAt(t, 0, load) then {t[0].0} else {}) + LoadedKeys(t[1..], load)
  {
  }

  /** What the loop does, starting from a registry that holds none of the table's loadable names:
      it never fails, the registry gains exactly the loaded names with their bundled fonts, and the
      overlays change only by re-applying the font named reapply, when that name loaded. */
  lemma {:induction false} AddBundledFontsOutcome(t: FontEntries, reg: Registry, o: Overlays, reapply: string, load: string -> bool)
    requires KeysDistinct(t)
    requires forall i :: 0 <= i < |t| && t[i].1.Some? ==> t[i].0 !in reg
    ensures AddBundledFonts(t, reg, o, reapply, load).Success?
    ensures AddBundledFonts(t, reg, o, reapply, load).value.0.Keys == reg.Keys + LoadedKeys(t, load)
    ensures forall k :: k in reg ==> AddBundledFonts(t, reg, o, reapply, load).value.0[k] == reg[k]
    ensures forall i :: 0 <= i < |t| && LoadsAt(t, i, load) ==>
      AddBundledFonts(t, reg, o, reapply, load).value.0[t[i].0] == BundledFont(t[i].1.value)
    ensures reapply !in LoadedKeys(t, load) || o.subtitles.None? ==> AddBundledFonts(t, reg, o, reapply, load).value.1 == o
    ensures reapply in LoadedKeys(t, load) && o.subtitles.Some? ==>
      var (reg', o') := AddBundledFonts(t, reg, o, reapply, load).value;
      o' == o.(subtitles := Some(o.subtitles.value.(font := reg'[reapply])))
    decreases |t|
  {
    if t != [] {
      LoadedKeysCons(t, load);
      var rest := t[1..];
      assert KeysDistinct(rest) by {
        forall i, j | 0 <= i < j < |rest| ensures rest[i].0 != rest[j].0 {
          assert rest[i] == t[i + 1] && rest[j] == t[j + 1];
        }
      }
      var key := t[0].0;
      assert key !in LoadedKeys(rest, load) by {
        forall i | 0 <= i < |rest| ensures rest[i].0 != key {
          assert t[i + 1] == rest[i];
        }
      }
      if !LoadsAt(t, 0, load) {
        assert forall i :: 0 <= i < |rest| && rest[i].1.Some? ==> rest[i].0 !in reg by {
          forall i | 0 <= i < |rest| ensures rest[i] == t[i + 1] { }
        }
        AddBundledFontsOutcome(rest, reg, o, reapply, load);
        forall i | 0 < i < |t| && LoadsAt(t, i, load)
          ensures AddBundledFonts(t, reg, o, reapply, load).value.0[t[i].0] == BundledFont(t[i].1.value)
        {
          assert rest[i - 1] == t[i];
          assert LoadsAt(rest, i - 1, load);
        }
      } else {
        var reg' := reg[key := BundledFont(t[0].1.value)];
        var o' := if reapply == key then ChangeSubtitlesFont(o, reg', key).value else o;
        assert forall i :: 0 <= i < |rest| && rest[i].1.Some? ==> rest[i].0 !in reg' by {
          forall i | 0 <= i < |rest| ensures rest[i] == t[i + 1] && rest[i].0 != key {
            assert t[0].0 != t[i + 1].0;
          }
        }
        AddBundledFontsOutcome(rest, reg', o', reapply, load);
        assert AddBundledFonts(t, reg, o, reapply, load) == AddBundledFonts(rest, reg', o', reapply, load);
        forall i | 0 < i < |t| && LoadsAt(t, i, load)
          ensures AddBundledFonts(t, reg, o, reapply, load).value.0[t[i].0] == BundledFont(t[i].1.value)
        {
          assert rest[i - 1] == t[i];
          assert LoadsAt(rest, i - 1, load);
        }
      }
    }
  }

  lemma FontTableFacts()
    ensures KeysDistinct(FontTable)
    ensures forall i :: 0 <= i < |FontTable| && FontTable[i].1.Some? ==> FontTable[i].0 !in InitialRegistry
    ensures forall i :: 0 <= i < |FontTable| ==> FontTable[i].0 !in AlignmentChoices
  {
  }

  /** OnFontsBundleLoaded as written: the re-apply test compares the alignment chooser's value. */
  function OnFontsBundleLoaded(reg: Registry, o: Overlays, alignmentChoice: string, load: string -> bool): (r: Result<(Registry, Overlays)>)
    ensures reg == InitialRegistry ==> r.Success?
    ensures reg == InitialRegistry ==> r.value.0.Keys == {"Arial"} + LoadedKeys(FontTable, load)
    ensures reg == InitialRegistry ==> r.value.0.Keys <= FontKeys && r.value.0["Arial"] == BuiltinArial
    ensures reg == InitialRegistry ==> forall i :: 0 <= i < |FontTable| && LoadsAt(FontTable, i, load) ==>
      r.value.0[FontTable[i].0] == BundledFont(FontTable[i].1.value)
    ensures reg == InitialRegistry && alignmentChoice in AlignmentChoices ==> r.value.1 == o
  {
    if reg == InitialRegistry then
      FontTableFacts();
      AddBundledFontsOutcome(FontTable, reg, o, alignmentChoice, load);
      AddBundledFonts(FontTable, reg, o, alignmentChoice, load)
    else
      AddBundledFonts(FontTable, reg, o, alignmentChoice, load)
  }

  /** The same loop when the request's asset bundle is null (the bundle failed to load): entries
      without a path are skipped, and the first one with a path throws on the null bundle, before
      anything is added. */
  function AddFontsFromNullBundle(t: FontEntries, reg: Registry, o: Overlays): (r: Result<(Registry, Overlays)>)
    ensures r.Failure? <==> exists i :: 0 <= i < |t| && t[i].1.Some?
    ensures r.Failure? ==> r.error == NullReference
    ensures r.Success? ==> r.value == (reg, o)
  {
    if t == [] then Success((reg, o))
    else if t[0].1.Some? then Failure(NullReference)
    else
      assert forall i :: 0 <= i < |t[1..]| ==> t[1..][i] == t[i + 1];
      AddFontsFromNullBundle(t[1..], reg, o)
  }

  /** On the font table a null bundle always throws, and the registry and overlays stay as they were. */
  lemma NullBundleThrows(reg: Registry, o: Overlays)
    ensures AddFontsFromNullBundle(FontTable, reg, o) == Failure(NullReference)
  {
    assert FontTable[1].1.Some?;
  }

  /** The callback as evidently intended: the re-apply test compares the font chooser's value,
      so a font chosen before the bundle arrived is shown once it has loaded. */
  function OnFontsBundleLoadedIntended(reg: Registry, o: Overlays, fontChoice: string, load: string -> bool): (r: Result<(Registry, Overlays)>)
    ensures reg == InitialRegistry ==> r.Success?
    ensures reg == InitialRegistry ==> r.value.0.Keys == {"Arial"} + LoadedKeys(FontTable, load)
    ensures reg == InitialRegistry ==> forall i :: 0 <= i < |FontTable| && LoadsAt(FontTable, i, load) ==>
      r.value.0[FontTable[i].0] == BundledFont(FontTable[i].1.value)
    ensures reg == InitialRegistry && o.subtitles.Some? && fontChoice in LoadedKeys(FontTable, load) ==>
      r.value.1.subtitles.Some? && r.value.1.subtitles.value.font == r.value.0[fontChoice]
    ensures reg == InitialRegistry && o.subtitles.Some? && fontChoice in LoadedKeys(FontTable, load) ==>
      r.value.1.subtitles.value.font.BundledFont?
    ensures reg == InitialRegistry && fontChoice !in LoadedKeys(FontTable, load) ==> r.value.1 == o
  {
    if reg == InitialRegistry then
      FontTableFacts();
      AddBundledFontsOutcome(FontTable, reg, o, fontChoice, load);
      var r := AddBundledFonts(FontTable, reg, o, fontChoice, load);
      assert fontChoice in LoadedKeys(FontTable, load) ==> r.value.0[fontChoice].BundledFont?;
      r
    else
      AddBundledFonts(FontTable, reg, o, fontChoice, load)
  }

  /** With the alignment chooser on one of its own labels, the callback never re-applies a font:
      a bundled font chosen before the bundle loaded stays unshown even though it loaded. */
  lemma ChosenFontNotReappliedAsWritten(o: Overlays, alignmentChoice: string, fontChoice: string, load: string -> bool)
    requires alignmentChoice in AlignmentChoices
    requires fontChoice in LoadedKeys(FontTable, load)
    requires o.subtitles.Some? && o.subtitles.value.font == BuiltinArial
    ensures OnFontsBundleLoaded(InitialRegistry, o, alignmentChoice, load).value.1.subtitles.value.font
         != OnFontsBundleLoaded(InitialRegistry, o, alignmentChoice, load).value.0[fontChoice]
  {
  }

  /** The concrete case: subtitles shown in Arial, "Oswald" chosen, alignment at its default
      "Bottom", every asset loads. As written the text keeps Arial although Oswald is now
      registered; as intended it shows Oswald. */
  lemma OswaldNotReappliedExample(o: Overlays, load: string -> bool)
    requires o.subtitles.Some? && o.subtitles.value.font == BuiltinArial
    requires forall p :: load(p)
    ensures "Oswald" in LoadedKeys(FontTable, load)
    ensures OnFontsBundleLoaded(InitialRegistry, o, "Bottom", load).value.1.subtitles.value.font == BuiltinArial
    ensures OnFontsBundleLoaded(InitialRegistry, o, "Bottom", load).value.0["Oswald"] == BundledFont("Assets/VAMFonts/oswald.ttf")
    ensures OnFontsBundleLoadedIntended(InitialRegistry, o, "Oswald", load).value.1.subtitles.value.font == BundledFont("Assets/VAMFonts/oswald.ttf")
  {
    assert FontTable[11] == ("Oswald", Some("Assets/VAMFonts/oswald.ttf"));
    assert LoadsAt(FontTable, 11, load);
  }

  /** Only Arial is guaranteed: a table font whose asset did not load cannot be selected once the
      text exists, while Arial always can. */
  lemma FontSetterAfterLoad(o: Overlays, name: string, alignmentChoice: string, load: string -> bool)
    requires o.subtitles.Some?
    requires name in FontKeys && name != "Arial" && name !in LoadedKeys(FontTable, load)
    ensures var reg := OnFontsBundleLoaded(InitialRegistry, o, alignmentChoice, load).value.0;
      ChangeSubtitlesFont(o, reg, name) == Failure(KeyNotFound(name))
      && ChangeSubtitlesFont(o, reg, "Arial") == Success(o.(subtitles := Some(o.subtitles.value.(font := BuiltinArial))))
  {
  }
}
