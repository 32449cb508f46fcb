# VAMOverlays overlay controller, modelled in Dafny

VAMOverlays is a plugin for a VR application's scripting host. It draws two
overlays in front of the camera: a full-screen fade image and a subtitle text.
This project models the logic under its UI glue:

- **Overlay state machine** (`Overlay`). Each layer has a current alpha and the
  last cross-fade requested of it (a target and a duration).
  - `SetAlpha` sets the alpha. `CrossFadeAlpha` replaces the cross-fade request.
  - `Invoke` appends a pending invocation. Unity keeps every pending
    invocation, so they form a list. `Fire` is the host running one of them.
  - The transitions are `FadeIn`, `FadeOut`, `TestFadeOut`, show-for-5-seconds,
    show-permanently, hide, the preview toggle, and the text, size and
    alignment callbacks. `TestFadeIn` only calls `FadeIn`.
  - Every subtitle mutator returns its input until the text exists.
    `FadeIn` and `FadeOut` have no such guard: before the fade image exists
    they end in a null reference.
- **Alignment mapping** (`Overlay.AlignmentFor`). "Center" maps to the middle
  anchor and "Top" to the upper one. Any other string maps to the bottom.
- **Font registry** (`Fonts`). The registry starts as `{Arial}`. When the font
  bundle arrives, it is extended from the fixed 15-entry font table: an entry
  is added when it has a path and its asset loaded. Whether an asset loads is
  a parameter (the load oracle). The font setter indexes the registry and
  throws on a missing name. After each addition, the callback re-applies the
  font, but only when the *alignment* chooser's value equals the font name.
  The model keeps this as written; see Findings.
- **Plugin path** (`PluginPath`). The script id is the script name before its
  first `_`. The plugin directory is the plugin file name before its last `/`
  or `\`. Both cuts fail (`Substring(0, -1)`) when the character is missing.
- **The plugin as driven by the host** (`Plugin`). `Init` and `Start` build
  the state. Then `Step` takes one host event. An exception in a handler ends
  only that handler, so a step returns the state left behind and the
  exception, if any. `Inv` holds in every reachable state. `StepErrors` lists
  every exception a reachable state can still raise.

The host supplies these inputs as parameters:
- the random quote index (`pick`);
- the load oracle;
- whether VR is present;
- the desktop font size (a float computation);
- the host's plugin table (`pluginFile`).

The scripting-only "Change fade in time" and "Change fade out time" values
are registered without a callback. `FadeIn` and `FadeOut` never read them,
so changing them has no effect. The model therefore has no event for them.

## Model

| member | source | states |
|---|---|---|
| PluginPath.IndexOf | src/vamoverlays.cs:638 | The answer is -1 (None) exactly when the character is absent. Otherwise it is a position holding the character with no earlier occurrence. |
| PluginPath.LastIndexOfAny | src/vamoverlays.cs:640 | The answer is -1 (None) exactly when no listed character occurs. Otherwise it is a position holding one, with none after it. |
| PluginPath.Prefix | src/vamoverlays.cs:638-640 | `Substring(0, index)` fails with ArgumentOutOfRange exactly when the search answered -1. Otherwise it is the prefix of that length. |
| PluginPath.ScriptId | src/vamoverlays.cs:638 | Fails exactly when the name has no `_`. Otherwise the id is the name's prefix up to its first `_` and contains no `_`. |
| PluginPath.Directory | src/vamoverlays.cs:640 | Fails exactly when the file name has no `/` or `\`. Otherwise it is the prefix before the last separator, with no separator after it. |
| PluginPath.GetPluginPath | src/vamoverlays.cs:636-641 | A name without `_` fails. A name with one gives exactly the directory (or its failure) of the file the host lists for the script id. |
| PluginPath.FontsBundlePath | src/vamoverlays.cs:109 | Succeeds exactly when the plugin path does. The result is that path followed by `/assets/fonts.fontbundle`. |
| PluginPath.ScriptIdRoundTrip | src/vamoverlays.cs:638 | For an id without `_`, the name `id_rest` gives back `id`. |
| PluginPath.DirectoryRoundTrip | src/vamoverlays.cs:640 | `dir` + separator + a base without separators gives back `dir`. |
| PluginPath.PluginPathOfJoinedFile | src/vamoverlays.cs:636-641 | A script `id_rest` whose plugin file is `dir/base` has plugin path `dir` and bundle path `dir/assets/fonts.fontbundle`. |
| Overlay.FadeIn | src/vamoverlays.cs:368-372 | A null reference when the fade image is absent. Otherwise the fade alpha is 1 with a cross-fade to 0 over the fade-in time, and the text and pending invocations are unchanged. |
| Overlay.FadeOut | src/vamoverlays.cs:381-385 | A null reference when the fade image is absent. Otherwise the fade alpha is 0 with a cross-fade to 1 over the fade-out time, and the text and pending invocations are unchanged. |
| Overlay.TestFadeOut | src/vamoverlays.cs:388-392 | Fails like FadeOut. Otherwise the fade layer is FadeOut's and the pending list gains exactly one FadeIn, due at fade-out time + 5. |
| Overlay.ShowSubtitles5Secs | src/vamoverlays.cs:532-538 | Without text: the input. Otherwise the text layer becomes alpha 0 with a cross-fade to 1 over 1 s, the text, font, size and alignment are kept, the fade image is untouched, and exactly one hide is appended, due at 6 s. |
| Overlay.ShowSubtitlesPermanent | src/vamoverlays.cs:540-545 | Without text: the input. Otherwise the same text layer as the 5-second show, with text, font, size and alignment kept, nothing scheduled and the fade image untouched. |
| Overlay.HideSubtitles | src/vamoverlays.cs:547-551 | Without text: the input. Otherwise the alpha is kept and a cross-fade to 0 over 1 s is requested. The text, font, size, alignment, fade image and pending list are unchanged. |
| Overlay.GetRandomQuote | src/vamoverlays.cs:360-365 | For an index in [0, quote count), as `Random.Next` promises, the result is one of the quotes. |
| Overlay.PreviewSubtitles | src/vamoverlays.cs:587-599 | Without text: the input. On: alpha 1 and the text is the picked quote. Off: alpha 0 and the text is kept. The cross-fade request, font, size, alignment, fade image and pending list are untouched. |
| Overlay.SetSubtitlesText | src/vamoverlays.cs:601-605 | Without text: the input. Otherwise only the text changes, to the given value. |
| Overlay.AlignmentFor | src/vamoverlays.cs:403-414 | Total. The middle anchor iff "Center", the upper anchor iff "Top", the lower anchor for every other string. |
| Overlay.ChangeSubtitlesAlignment | src/vamoverlays.cs:400-415 | Without text: the input. Otherwise only the alignment changes, to the mapped anchor. |
| Overlay.RoundHalfEven | src/vamoverlays.cs:218 | `Mathf.Round`: the result is within half a unit of the input, and an exact tie goes to the even integer. |
| Overlay.FontSize | src/vamoverlays.cs:417-425 | In VR the pixel size is exactly 5 × the rounded size. On the desktop it is the host-computed size. |
| Overlay.SetSubtitlesSize | src/vamoverlays.cs:607-611 | Without text: the input. Otherwise only the font size changes, to `FontSize` of the given size. |
| Overlay.SubtitlesSizeSlider | src/vamoverlays.cs:216-220 | Without text: the input. Otherwise only the font size changes, to `FontSize` of the slider value rounded half to even; the fade image and pending list are untouched. In VR the pixel size is therefore a multiple of 5, within 2.5 of 5 × the slider value. |
| Overlay.Fire | src/vamoverlays.cs:391 | The due invocation leaves the list. Its method then runs: FadeIn with the current fade-in time, or the hide. |
| Overlay.LastFadeTriggerWins | src/vamoverlays.cs:368-385 | FadeIn after FadeOut equals FadeIn alone, and the reverse too: the last trigger decides the fade layer. |
| Overlay.TestFadeOutThenScheduledFadeIn | src/vamoverlays.cs:388-392 | When the fade-in scheduled by TestFadeOut fires, the overlays equal those after FadeIn alone. |
| Overlay.ShowFor5SecsThenScheduledHide | src/vamoverlays.cs:532-551 | When the hide scheduled by the 5-second show fires, the overlays equal those after show-permanently followed by hide. |
| Overlay.HideIdempotent | src/vamoverlays.cs:547-551 | Hiding twice equals hiding once. |
| Overlay.FadeCommutesWithSubtitles | src/vamoverlays.cs:368-372 | FadeIn commutes with the 5-second show and with hide: the two layers are independent. |
| Overlay.AlignmentChoicesBijective | src/vamoverlays.cs:234-245 | The chooser labels Bottom/Center/Top and the three anchors the chooser selects correspond one to one through `AlignmentFor`. |
| Overlay.RoundHalfEvenProperties | src/vamoverlays.cs:218 | Rounding fixes whole numbers. The integer within less than half a unit of the input is the result. |
| Fonts.ChangeSubtitlesFont | src/vamoverlays.cs:394-398 | Without text: the input. With text: KeyNotFound iff the name is not registered; otherwise only the font changes, to the registered one. |
| Fonts.AddBundledFontsOutcome | src/vamoverlays.cs:559-571 | Over distinct names, with no table name that has a path registered yet: the loop never fails. The registry gains exactly the loaded names, with their bundled fonts, and keeps its old entries. The text changes only by re-applying the font named by the compared value, when that name loaded. |
| Fonts.NamesAreKeys | src/vamoverlays.cs:54 | A table's name list (`FontList.Select(kvp => kvp.Key)`) holds exactly the table's names. |
| Fonts.FontChoicesAreFontKeys | src/vamoverlays.cs:54 | Both font choosers offer exactly the names of the font table. |
| Fonts.FontTableFacts | src/vamoverlays.cs:31-50 | The table's names are distinct. Only Arial is in the initial registry, and Arial has no path. No table name is an alignment label. |
| Fonts.OnFontsBundleLoaded | src/vamoverlays.cs:556-573 | From `{Arial}`: no Add collides. The registry is exactly Arial plus the loaded table names, within the table, each mapped to its bundled font. With an alignment label as the compared value, the overlays are unchanged. |
| Fonts.AddFontsFromNullBundle | src/vamoverlays.cs:559-562 | The loop when the bundle failed to load: it throws a null reference exactly when some entry has a path, and otherwise returns the registry and overlays unchanged. |
| Fonts.NullBundleThrows | src/vamoverlays.cs:559-562 | On the font table a null bundle always throws a null reference, at Amalia, before any font is added. |
| Fonts.OnFontsBundleLoadedIntended | src/vamoverlays.cs:566-570 | The callback comparing the font chooser's value instead. When the chosen font loaded and the text exists, the text shows that bundled font. When it did not load, the overlays are unchanged. |
| Fonts.ChosenFontNotReappliedAsWritten | src/vamoverlays.cs:567-570 | As written, with an alignment label in the alignment chooser, a loaded chosen font is not shown by text that was in Arial. |
| Fonts.OswaldNotReappliedExample | src/vamoverlays.cs:567-570 | Oswald chosen, alignment "Bottom", every asset loads. As written the text stays Arial although Oswald is registered. The corrected callback shows Oswald. |
| Fonts.FontSetterAfterLoad | src/vamoverlays.cs:394-398 | After the bundle callback, a table font whose asset did not load raises KeyNotFound once the text exists. Arial is always accepted. |
| Plugin.Init | src/vamoverlays.cs:99-245 | Refuses a non-"Empty" atom. Fails exactly when the plugin path does, with ArgumentOutOfRange. Otherwise: the registry is `{Arial}`, no overlays exist, the settings are the defaults (fade at start off, fade-in and fade-out times 5 s, choosers at "Arial"/"Bottom"), and the bundle path is built from the plugin path. |
| Plugin.Start | src/vamoverlays.cs:461-500 | Marks the plugin started and changes nothing else but the overlays. Always builds the fade image and the text, with no cross-fade and the pending list kept; the text is at alpha 0 with the picked quote. Fails with KeyNotFound exactly without Arial: then the fade stays transparent and the text keeps a new Text component's font, size and anchor. Otherwise the text has Arial, size `FontSize(18)` and the stored alignment's anchor, and the fade image is opaque iff fade-at-start. |
| Plugin.StepSettings | src/vamoverlays.cs:166-284 | The host wiring: a stored chooser stores its value (a scripting-only one stores nothing), each fade setting stores its own value and changes nothing else, every other event leaves the settings alone, the bundle path and VR flag never change, and only the bundle answer touches the registry or the bundle flag. |
| Plugin.InitEstablishesInv | src/vamoverlays.cs:112-116 | A successful Init satisfies the invariant: Arial registered, registry within the table, no overlays before Start. |
| Plugin.BundleLoadedKeepsInv | src/vamoverlays.cs:556-573 | A loaded bundle's answer never fails from a reachable state and keeps the invariant: the text's font stays a registered font. |
| Plugin.StepKeepsInv | src/vamoverlays.cs:360-616 | Every event the host can deliver keeps the invariant, a bundle that failed to load included. |
| Plugin.StepErrors | src/vamoverlays.cs:368-398 | From a reachable state, a step raises exactly in three cases: a fade trigger before Start (null reference), choosing an unregistered font once the text exists (KeyNotFound), or a bundle that failed to load (null reference). |
| Plugin.SubtitleEventsInertBeforeStart | src/vamoverlays.cs:532-611 | Before Start, no subtitle event changes the overlays or raises. |

## Findings

| source | as written | input that shows it | evidently intended | confidence | as-written member | corrected member |
|---|---|---|---|---|---|---|
| src/vamoverlays.cs:567 | After adding a font, the callback re-applies it when the alignment chooser's value equals the font's name. | Font chooser "Oswald", alignment chooser "Bottom", the bundle arrives after the text exists and Oswald loads. The text stays in Arial. | Compare the font chooser's value, as the comment at line 566 describes. A font chosen before the bundle arrived then shows once it loads. | high; not executed | Fonts.ChosenFontNotReappliedAsWritten | Fonts.OnFontsBundleLoadedIntended |

`Plugin.Step` keeps the callback as written, because it models the code.
`Fonts.OswaldNotReappliedExample` proves both sides of the row on the same
input.

## Left out

- Scene-graph and canvas construction: the canvas, rect transforms, offsets,
  shadow and layers. This is host layout with no logic. `Start` keeps only
  the values the controller reads back.
- Colours: the fade and subtitle colour callbacks and the HSV conversion are
  foreign float computations.
- The interpolation run by `CrossFadeAlpha` and the wall-clock timing of
  `Invoke`. Both are owned by the host. A cross-fade is recorded as a request,
  and an invocation as a pending list entry with its delay.
- The desktop font-size factor 2.34 and its `Math.Round` (float rounding).
  `FontSize` takes the desktop size as a host-computed input.
- Host property registration, UI widget creation and the sliders' range
  clamps (0–120 s, 12–100, 18–100). The host applies these before a value
  reaches a callback.
- The random generator, asset-bundle loading, VR detection and the host's
  plugin table. They are the parameters `pick`, `bundle` (absent when the
  bundle failed to load) with its load oracle `load`, `inVr` and `pluginFile`.
- Float arithmetic: alphas, durations and invocation delays are exact reals.
  The float rounding of the `fade-out time + 5` delay at line 391 of
  src/vamoverlays.cs is not modelled.
- The UI library's own code. The font, size and anchor of a freshly added
  Text component (no font, 14, upper left) are taken from its documented
  defaults; they matter only after `Start` fails to find Arial.
- `OnDestroy` cleanup and the debug-only `Update` text.
- Failures of host calls during `Start`, such as a missing main camera. `Start`
  models only the registry lookup of Arial as a possible failure.
- What the plugin does after a failed `Init`. The model ends there.
- Dictionary enumeration order: the font table is walked in declaration order.
- Fonts.OnFontsBundleLoaded: states its outcome only when it starts from the
  `{Arial}` registry that Init creates. This is the only registry it can meet,
  because the host answers the bundle request once. The code would keep the
  partial additions made before a colliding `Add`. The model returns only the
  error, because `Plugin.StepErrors` shows that no reachable state collides.
