/** The plugin as the host drives it: Init once, Start once, then any sequence of
    host events (actions, parameter changes, the font bundle arriving once, a
    pending invocation coming due). An exception inside a handler ends that
    handler only; the host logs it and the plugin carries on, so a step yields
    the state the handler left behind and, possibly, the exception. */
module Plugin {
  import opened Wrappers
  import opened Overlay
  import opened Fonts
  import PluginPath

  /** The stored parameters the modelled code reads back. */
  datatype Settings = Settings(
    fadeAtStart: bool,
    fadeInTime: real,
    fadeOutTime: real,
    fontChoice: string,      // the stored font chooser's value
    alignmentChoice: string) // the stored alignment chooser's value

  const DefaultSettings: Settings := Settings(false, 5.0, 5.0, FontChoices[0], AlignmentChoices[0])

  datatype Plugin = Plugin(
    bundlePath: string,
    inVr: bool,
    registry: Registry,
    bundleLoaded: bool,
    started: bool,
    settings: Settings,
    overlays: Overlays)

  datatype Outcome = Outcome(plugin: Plugin, error: Option<Error>)

  /** Host events. A chooser event says whether it came through the stored chooser (whose value
      the plugin keeps) or through the scripting-only one that shares its callback. */
  datatype Event =
    | Started(pick: nat)
    | StartFadeIn
    | StartFadeOut
    | TestFadeInButton
    | TestFadeOutButton
    | ShowFor5Secs
    | ShowPermanently
    | Hide
    | PreviewToggled(on: bool, pick: nat)
    | SubtitlesTextSet(text: string)
    | SubtitlesSizeSet(value: real)
    | FontChosen(stored: bool, name: string)
    | AlignmentChosen(stored: bool, name: string)
    | FadeAtStartSet(on: bool)
    | FadeInTimeSet(seconds: real)
    | FadeOutTimeSet(seconds: real)
    | BundleLoaded(bundle: Option<string -> bool>) // None: the bundle failed to load
    | InvocationDue(index: nat)

  /** Init: only on an "Empty" atom; a plugin path that cannot be cut fails the rest of Init. */
  function Init(atomType: string, scriptName: string, pluginFile: string -> string, inVr: bool): (r: Result<Plugin>)
    ensures atomType != "Empty" ==> r == Failure(NotOnEmptyAtom)
    ensures atomType == "Empty" && '_' !in scriptName ==> r == Failure(ArgumentOutOfRange)
    ensures atomType == "Empty" ==> (r.Success? <==> PluginPath.FontsBundlePath(scriptName, pluginFile).Success?)
    ensures r.Success? ==> r.value.bundlePath == PluginPath.FontsBundlePath(scriptName, pluginFile).value
    ensures r.Success? ==> r.value.registry == InitialRegistry && r.value.overlays == NoOverlays
    ensures r.Success? ==> !r.value.bundleLoaded && !r.value.started && r.value.inVr == inVr
    ensures atomType == "Empty" && r.Failure? ==> r.error == ArgumentOutOfRange
    ensures r.Success? ==> r.value.settings == Settings(false, 5.0, 5.0, "Arial", "Bottom")
  {
    if atomType != "Empty" then Failure(NotOnEmptyAtom)
    else
      var path :- PluginPath.FontsBundlePath(scriptName, pluginFile);
      Success(Plugin(path, inVr, InitialRegistry, false, false, DefaultSettings, NoOverlays))
  }

  /** Start: build the fade image (transparent), then the text (transparent, a random quote),
      give it Arial, size 18 and the stored alignment, then make the fade opaque if asked to.
      Looking Arial up is the step that can throw: the fade image and the new text component,
      with its own font, size and anchor, are left as they are. */
  function Start(p: Plugin, pick: nat, desktopSize: int -> int): (r: Outcome)
    requires pick < |Quotes|
    ensures r.plugin == p.(started := true, overlays := r.plugin.overlays)
    ensures r.plugin.overlays.pending == p.overlays.pending
    ensures r.plugin.overlays.fadeImg.Some? && r.plugin.overlays.subtitles.Some?
    ensures r.error.Some? <==> "Arial" !in p.registry
    ensures r.error.Some? ==> r.error.value == KeyNotFound("Arial")
    ensures r.plugin.overlays.fadeImg.value == Layer(if r.error.None? && p.settings.fadeAtStart then 1.0 else 0.0, None)
    ensures var s := r.plugin.overlays.subtitles.value;
      s.render == Layer(0.0, None) && s.text == Quotes[pick]
    ensures r.error.Some? ==>
      var s := r.plugin.overlays.subtitles.value;
      s.font == NoFont && s.fontSize == ComponentFontSize && s.alignment == UpperLeft
    ensures r.error.None? ==>
      var s := r.plugin.overlays.subtitles.value;
      s.font == p.registry["Arial"] && s.fontSize == FontSize(18, p.inVr, desktopSize)
      && s.alignment == AlignmentFor(p.settings.alignmentChoice)
  {
    var withFade := p.overlays.(fadeImg := Some(Layer(0.0, None)));
    var created := Subtitles(Layer(0.0, None), GetRandomQuote(pick), NoFont, ComponentFontSize, UpperLeft);
    if "Arial" !in p.registry then
      Outcome(p.(started := true, overlays := withFade.(subtitles := Some(created))), Some(KeyNotFound("Arial")))
    else
      var text := created.(font := p.registry["Arial"], fontSize := FontSize(18, p.inVr, desktopSize));
      var built := ChangeSubtitlesAlignment(withFade.(subtitles := Some(text)), p.settings.alignmentChoice);
      var shown := if p.settings.fadeAtStart then built.(fadeImg := Some(SetAlpha(built.fadeImg.value, 1.0))) else built;
      Outcome(p.(started := true, overlays := shown), None)
  }

  /** The events the host can deliver: Start and the bundle answer come once, a random pick is
      below the quote count, and only a pending invocation can come due. */
  predicate Enabled(p: Plugin, e: Event) {
    match e
    case Started(pick) => !p.started && pick < |Quotes|
    case PreviewToggled(_, pick) => pick < |Quotes|
    case BundleLoaded(_) => !p.bundleLoaded
    case InvocationDue(i) => i < |p.overlays.pending|
    case _ => true
  }

  function Apply(p: Plugin, r: Result<Overlays>): Outcome {
    match r
    case Success(o) => Outcome(p.(overlays := o), None)
    case Failure(err) => Outcome(p, Some(err))
  }

  function Step(p: Plugin, e: Event, desktopSize: int -> int): Outcome
    requires Enabled(p, e)
  {
    var o := p.overlays;
    var s := p.settings;
    match e
    case Started(pick) => Start(p, pick, desktopSize)
    case StartFadeIn => Apply(p, FadeIn(o, s.fadeInTime))
    case TestFadeInButton => Apply(p, FadeIn(o, s.fadeInTime))
    case StartFadeOut => Apply(p, FadeOut(o, s.fadeOutTime))
    case TestFadeOutButton => Apply(p, TestFadeOut(o, s.fadeOutTime))
    case ShowFor5Secs => Apply(p, Success(ShowSubtitles5Secs(o)))
    case ShowPermanently => Apply(p, Success(ShowSubtitlesPermanent(o)))
    case Hide => Apply(p, Success(HideSubtitles(o)))
    case PreviewToggled(on, pick) => Apply(p, Success(PreviewSubtitles(o, on, pick)))
    case SubtitlesTextSet(text) => Apply(p, Success(SetSubtitlesText(o, text)))
    case SubtitlesSizeSet(value) => Apply(p, Success(SubtitlesSizeSlider(o, value, p.inVr, desktopSize)))
    case FontChosen(stored, name) =>
      var p' := if stored then p.(settings := s.(fontChoice := name)) else p;
      Apply(p', ChangeSubtitlesFont(o, p.registry, name))
    case AlignmentChosen(stored, name) =>
      var p' := if stored then p.(settings := s.(alignmentChoice := name)) else p;
      Apply(p', Success(ChangeSubtitlesAlignment(o, name)))
    case FadeAtStartSet(on) => Outcome(p.(settings := s.(fadeAtStart := on)), None)
    case FadeInTimeSet(t) => Outcome(p.(settings := s.(fadeInTime := t)), None)
    case FadeOutTimeSet(t) => Outcome(p.(settings := s.(fadeOutTime := t)), None)
    case BundleLoaded(bundle) =>
      var answer := if bundle.None? then AddFontsFromNullBundle(FontTable, p.registry, o)
                    else OnFontsBundleLoaded(p.registry, o, s.alignmentChoice, bundle.value);
      (match answer
       case Success(loaded) => Outcome(p.(registry := loaded.0, overlays := loaded.1, bundleLoaded := true), None)
       case Failure(err) => Outcome(p.(bundleLoaded := true), Some(err)))
    case InvocationDue(i) =>
      (match Fire(o, i, s.fadeInTime)
       case Success(o') => Outcome(p.(overlays := o'), None)
       case Failure(err) => Outcome(p.(overlays := o.(pending := RemoveAt(o.pending, i))), Some(err)))
  }

  /** The host wiring's effect on the stored values: only a stored chooser or one of the three
      fade settings changes them, each the value it stands for; a fade setting changes nothing
      else; the bundle path and VR flag never change; and only the bundle answer touches the
      registry and the bundle flag. */
  lemma StepSettings(p: Plugin, e: Event, desktopSize: int -> int)
    requires Enabled(p, e)
    ensures var q := Step(p, e, desktopSize).plugin;
      q.settings == (
        if e.FontChosen? && e.stored then p.settings.(fontChoice := e.name)
        else if e.AlignmentChosen? && e.stored then p.settings.(alignmentChoice := e.name)
        else if e.FadeAtStartSet? then p.settings.(fadeAtStart := e.on)
        else if e.FadeInTimeSet? then p.settings.(fadeInTime := e.seconds)
        else if e.FadeOutTimeSet? then p.settings.(fadeOutTime := e.seconds)
        else p.settings)
    ensures var q := Step(p, e, desktopSize).plugin;
      q.bundlePath == p.bundlePath && q.inVr == p.inVr
      && (q.registry != p.registry || q.bundleLoaded != p.bundleLoaded ==> e.BundleLoaded?)
    ensures e.FadeAtStartSet? || e.FadeInTimeSet? || e.FadeOutTimeSet? ==>
      Step(p, e, desktopSize) == Outcome(p.(settings := Step(p, e, desktopSize).plugin.settings), None)
  {
  }

  /** What holds of every plugin state the host can reach. */
  ghost predicate Inv(p: Plugin) {
    && "Arial" in p.registry && p.registry["Arial"] == BuiltinArial
    && p.registry.Keys <= FontKeys
    && (!p.bundleLoaded ==> p.registry == InitialRegistry)
    && (!p.started ==> p.overlays == NoOverlays)
    && (p.started ==> p.overlays.fadeImg.Some? && p.overlays.subtitles.Some?)
    && (p.overlays.subtitles.Some? ==> p.overlays.subtitles.value.font in p.registry.Values)
  }

  lemma InitEstablishesInv(atomType: string, scriptName: string, pluginFile: string -> string, inVr: bool)
    ensures Init(atomType, scriptName, pluginFile, inVr).Success? ==> Inv(Init(atomType, scriptName, pluginFile, inVr).value)
  {
    assert "Arial" in FontKeys by {
      assert FontTable[0].0 == "Arial";
    }
  }

  /** The bundle answer keeps the invariant: the registry grows within the table and a re-applied
      font is one the registry holds. */
  lemma BundleLoadedKeepsInv(p: Plugin, load: string -> bool)
    requires Inv(p) && !p.bundleLoaded
    ensures OnFontsBundleLoaded(p.registry, p.overlays, p.settings.alignmentChoice, load).Success?
    ensures var (reg, o) := OnFontsBundleLoaded(p.registry, p.overlays, p.settings.alignmentChoice, load).value;
      Inv(p.(registry := reg, overlays := o, bundleLoaded := true))
  {
    FontTableFacts();
    AddBundledFontsOutcome(FontTable, p.registry, p.overlays, p.settings.alignmentChoice, load);
    var (reg, o) := OnFontsBundleLoaded(p.registry, p.overlays, p.settings.alignmentChoice, load).value;
    if o.subtitles.Some? {
      if o == p.overlays {
        assert p.overlays.subtitles.value.font == BuiltinArial;
        assert reg["Arial"] == BuiltinArial;
      } else {
        assert o.subtitles.value.font == reg[p.settings.alignmentChoice];
      }
    }
  }

  /** Every event the host can deliver keeps the invariant. */
  lemma StepKeepsInv(p: Plugin, e: Event, desktopSize: int -> int)
    requires Inv(p) && Enabled(p, e)
    ensures Inv(Step(p, e, desktopSize).plugin)
  {
    match e
    case BundleLoaded(bundle) =>
      if bundle.Some? {
        BundleLoadedKeepsInv(p, bundle.value);
      } else {
        NullBundleThrows(p.registry, p.overlays);
      }
    case _ =>
  }

  /** The only exceptions a reachable state can raise: a fade trigger before Start has built the
      fade image, choosing a font the registry lacks once the text exists, and a bundle that
      failed to load. Init's guaranteed Arial keeps Start from failing, and the table's distinct
      names keep Add from colliding. */
  lemma StepErrors(p: Plugin, e: Event, desktopSize: int -> int)
    requires Inv(p) && Enabled(p, e)
    ensures Step(p, e, desktopSize).error.Some? <==>
      ((e.StartFadeIn? || e.StartFadeOut? || e.TestFadeInButton? || e.TestFadeOutButton?) && !p.started)
      || (e.FontChosen? && p.started && e.name !in p.registry)
      || (e.BundleLoaded? && e.bundle.None?)
    ensures Step(p, e, desktopSize).error.Some? ==>
      Step(p, e, desktopSize).error.value == (if e.FontChosen? then KeyNotFound(e.name) else NullReference)
  {
    if e.BundleLoaded? && e.bundle.None? {
      NullBundleThrows(p.registry, p.overlays);
    }
  }

  /** Before Start has built the text, no subtitle event touches the overlays. */
  lemma SubtitleEventsInertBeforeStart(p: Plugin, e: Event, desktopSize: int -> int)
    requires Inv(p) && Enabled(p, e) && !p.started
    requires e.ShowFor5Secs? || e.ShowPermanently? || e.Hide? || e.PreviewToggled? || e.SubtitlesTextSet?
          || e.SubtitlesSizeSet? || e.FontChosen? || e.AlignmentChosen?
    ensures Step(p, e, desktopSize).plugin.overlays == p.overlays
    ensures Step(p, e, desktopSize).error.None?
  {
  }
}
