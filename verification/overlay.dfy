/** The two overlay layers and their transitions.

    A layer is a canvas renderer: a current alpha, set directly by SetAlpha,
    and the last cross-fade requested of it by CrossFadeAlpha (a target alpha
    and a duration). The interpolation the host runs between the two is not
    modelled; CrossFadeAlpha replaces any earlier request, SetAlpha leaves it
    in place. Invoke(name, delay) records a pending invocation; Unity keeps
    every one of them, so they form a list. */
module Overlay {
  import opened Wrappers

  /** The anchors the alignment chooser selects, and UpperLeft, the one a new Text component has. */
  datatype TextAnchor = UpperLeft | LowerCenter | MiddleCenter | UpperCenter

  /** A font asset: none (a new Text component's), the built-in Arial resource, or one loaded
      from the fonts bundle. */
  datatype Font = NoFont | BuiltinArial | BundledFont(path: string)

  datatype CrossFade = CrossFade(target: real, duration: real)

  datatype Layer = Layer(alpha: real, crossFade: Option<CrossFade>)

  datatype Subtitles = Subtitles(render: Layer, text: string, font: Font, fontSize: int, alignment: TextAnchor)

  /** The two methods the plugin hands to Invoke. */
  datatype Callback = CallFadeIn | CallHideSubtitles

  datatype Invocation = Invocation(callback: Callback, delay: real)

  /** The fade image and the subtitle text exist only once Start has built them. */
  datatype Overlays = Overlays(fadeImg: Option<Layer>, subtitles: Option<Subtitles>, pending: seq<Invocation>)

  const NoOverlays: Overlays := Overlays(None, None, [])

  /** The font size a new Text component has. */
  const ComponentFontSize: int := 14

  /** The alignment labels offered by both alignment choosers, "Bottom" being the default. */
  const AlignmentChoices: seq<string> := ["Bottom", "Center", "Top"]

  /** The quotes a subtitle preview picks from. */
  const Quotes: seq<string> := [
    "<b>Ripley:</b> You better just start dealing with it, Hudson! Listen to me!\nHudson, just deal with it, because we need you and I'm sick of your bullshit.",
    "<b>Apone:</b> All right, sweethearts, what are you waiting for? Breakfast in bed?\nIt's another glorious day in the Corps.",
    "<b>Hudson:</b> We're on the express elevator to hell, going down!",
    "<b>Vasquez:</b> You always were an asshole, Gorman.",
    "<b>Drake:</b> They ain't pay us enough for this, man.\n<b>Dietrich:</b> Not enough to wake up every day to your face, Drake.",
    "<b>Vasquez:</b> How many combat drops?\n<b>Gorman:</b> Uh, two. Including this one.",
    "<b>Hicks:</b> <i>**pulls out a shotgun**</i> I like to keep this handy. For close encounters.\n<b>Frost:</b> Yeah, I heard that."
  ]

  function SetAlpha(l: Layer, alpha: real): Layer {
    l.(alpha := alpha)
  }

  function CrossFadeAlpha(l: Layer, target: real, duration: real): Layer {
    l.(crossFade := Some(CrossFade(target, duration)))
  }

  function WithSubtitleLayer(o: Overlays, render: Layer): Overlays
    requires o.subtitles.Some?
  {
    o.(subtitles := Some(o.subtitles.value.(render := render)))
  }

  // ---------------------------------------------------------------------------
  // Fade layer

  /** FadeIn: the fade image turns opaque and fades to transparent over fadeInTime.
      The fade image is used without a null check. */
  function FadeIn(o: Overlays, fadeInTime: real): (r: Result<Overlays>)
    ensures r.Failure? <==> o.fadeImg.None?
    ensures r.Failure? ==> r.error == NullReference
    ensures r.Success? ==> r.value.fadeImg.Some? && r.value.fadeImg.value.alpha == 1.0
    ensures r.Success? ==> r.value.fadeImg.value.crossFade == Some(CrossFade(0.0, fadeInTime))
    ensures r.Success? ==> r.value.subtitles == o.subtitles && r.value.pending == o.pending
  {
    match o.fadeImg
    case None => Failure(NullReference)
    case Some(img) => Success(o.(fadeImg := Some(CrossFadeAlpha(SetAlpha(img, 1.0), 0.0, fadeInTime))))
  }

  /** FadeOut: the fade image turns transparent and fades to opaque over fadeOutTime. */
  function FadeOut(o: Overlays, fadeOutTime: real): (r: Result<Overlays>)
    ensures r.Failure? <==> o.fadeImg.None?
    ensures r.Failure? ==> r.error == NullReference
    ensures r.Success? ==> r.value.fadeImg.Some? && r.value.fadeImg.value.alpha == 0.0
    ensures r.Success? ==> r.value.fadeImg.value.crossFade == Some(CrossFade(1.0, fadeOutTime))
    ensures r.Success? ==> r.value.subtitles == o.subtitles && r.value.pending == o.pending
  {
    match o.fadeImg
    case None => Failure(NullReference)
    case Some(img) => Success(o.(fadeImg := Some(CrossFadeAlpha(SetAlpha(img, 0.0), 1.0, fadeOutTime))))
  }

  /** TestFadeOut: a fade-out followed, fadeOutTime + 5 seconds later, by one fade-in. */
  function TestFadeOut(o: Overlays, fadeOutTime: real): (r: Result<Overlays>)
    ensures r.Failure? <==> o.fadeImg.None?
    ensures r.Failure? ==> r.error == NullReference
    ensures r.Success? ==> r.value.fadeImg == FadeOut(o, fadeOutTime).value.fadeImg
    ensures r.Success? ==> r.value.subtitles == o.subtitles
    ensures r.Success? ==> r.value.pending == o.pending + [Invocation(CallFadeIn, fadeOutTime + 5.0)]
  {
    var faded :- FadeOut(o, fadeOutTime);
    Success(faded.(pending := faded.pending + [Invocation(CallFadeIn, fadeOutTime + 5.0)]))
  }

  // ---------------------------------------------------------------------------
  // Subtitle layer: every mutator returns its input unchanged while the text does not exist

  /** Show for 5 seconds: appear from transparent over 1 s, and hide 6 s from now. */
  function ShowSubtitles5Secs(o: Overlays): (r: Overlays)
    ensures o.subtitles.None? ==> r == o
    ensures o.subtitles.Some? ==> r.subtitles == Some(o.subtitles.value.(render := Layer(0.0, Some(CrossFade(1.0, 1.0)))))
    ensures o.subtitles.Some? ==> r.pending == o.pending + [Invocation(CallHideSubtitles, 6.0)]
    ensures r.fadeImg == o.fadeImg
  {
    if o.subtitles.None? then o
    else
      var shown := WithSubtitleLayer(o, CrossFadeAlpha(SetAlpha(o.subtitles.value.render, 0.0), 1.0, 1.0));
      shown.(pending := o.pending + [Invocation(CallHideSubtitles, 6.0)])
  }

  /** Show permanently: appear from transparent over 1 s, nothing scheduled. */
  function ShowSubtitlesPermanent(o: Overlays): (r: Overlays)
    ensures o.subtitles.None? ==> r == o
    ensures o.subtitles.Some? ==> r.subtitles == Some(o.subtitles.value.(render := Layer(0.0, Some(CrossFade(1.0, 1.0)))))
    ensures r.pending == o.pending && r.fadeImg == o.fadeImg
  {
    if o.subtitles.None? then o
    else WithSubtitleLayer(o, CrossFadeAlpha(SetAlpha(o.subtitles.value.render, 0.0), 1.0, 1.0))
  }

  /** Hide: fade the text to transparent over 1 s, from whatever alpha it has. */
  function HideSubtitles(o: Overlays): (r: Overlays)
    ensures o.subtitles.None? ==> r == o
    ensures o.subtitles.Some? ==>
      r.subtitles == Some(o.subtitles.value.(render := Layer(o.subtitles.value.render.alpha, Some(CrossFade(0.0, 1.0)))))
    ensures r.pending == o.pending && r.fadeImg == o.fadeImg
  {
    if o.subtitles.None? then o
    else WithSubtitleLayer(o, CrossFadeAlpha(o.subtitles.value.render, 0.0, 1.0))
  }

  /** GetRandomQuote: Random.Next(count) answers an index in [0, count), given here as pick. */
  function GetRandomQuote(pick: nat): (q: string)
    requires pick < |Quotes|
    ensures q in Quotes
  {
    Quotes[pick]
  }

  /** The preview toggle: on shows a random quote at full alpha, off makes the text transparent. */
  function PreviewSubtitles(o: Overlays, on: bool, pick: nat): (r: Overlays)
    requires pick < |Quotes|
    ensures o.subtitles.None? ==> r == o
    ensures o.subtitles.Some? && on ==>
      r.subtitles == Some(o.subtitles.value.(text := Quotes[pick], render := o.subtitles.value.render.(alpha := 1.0)))
    ensures o.subtitles.Some? && !on ==>
      r.subtitles == Some(o.subtitles.value.(render := o.subtitles.value.render.(alpha := 0.0)))
    ensures r.pending == o.pending && r.fadeImg == o.fadeImg
  {
    if o.subtitles.None? then o
    else if on then
      var s := o.subtitles.value;
      o.(subtitles := Some(s.(text := GetRandomQuote(pick), render := SetAlpha(s.render, 1.0))))
    else WithSubtitleLayer(o, SetAlpha(o.subtitles.value.render, 0.0))
  }

  /** The subtitle text value callback. */
  function SetSubtitlesText(o: Overlays, text: string): (r: Overlays)
    ensures o.subtitles.None? ==> r == o
    ensures o.subtitles.Some? ==> r.subtitles == Some(o.subtitles.value.(text := text))
    ensures r.pending == o.pending && r.fadeImg == o.fadeImg
  {
    if o.subtitles.None? then o
    else o.(subtitles := Some(o.subtitles.value.(text := text)))
  }

  /** The alignment chooser's mapping: "Center" and "Top" are recognised, every other choice is the bottom. */
  function AlignmentFor(choice: string): (a: TextAnchor)
    ensures a == MiddleCenter <==> choice == "Center"
    ensures a == UpperCenter <==> choice == "Top"
    ensures a == LowerCenter <==> choice != "Center" && choice != "Top"
  {
    if choice == "Center" then MiddleCenter
    else if choice == "Top" then UpperCenter
    else LowerCenter
  }

  function ChangeSubtitlesAlignment(o: Overlays, choice: string): (r: Overlays)
    ensures o.subtitles.None? ==> r == o
    ensures o.subtitles.Some? ==> r.subtitles == Some(o.subtitles.value.(alignment := AlignmentFor(choice)))
    ensures r.pending == o.pending && r.fadeImg == o.fadeImg
  {
    if o.subtitles.None? then o
    else o.(subtitles := Some(o.subtitles.value.(alignment := AlignmentFor(choice))))
  }

  /** Mathf.Round: the nearest integer, a tie going to the even one. */
  function RoundHalfEven(x: real): (n: int)
    ensures -0.5 <= x - n as real <= 0.5
    ensures (x - n as real == 0.5 || x - n as real == -0.5) ==> n % 2 == 0
  {
    var f := x.Floor;
    var d := x - f as real;
    if d < 0.5 then f
    else if d > 0.5 then f + 1
    else if f % 2 == 0 then f
    else f + 1
  }

  /** GetFontSize for a size already rounded to an integer: five times the size in VR.
      The desktop size (a 2.34 float factor, rounded) is the host-computed desktopSize. */
  function FontSize(size: int, inVr: bool, desktopSize: int -> int): (px: int)
    ensures inVr ==> px == 5 * size
    ensures !inVr ==> px == desktopSize(size)
  {
    if inVr then 5 * size else desktopSize(size)
  }

  /** The subtitle size callback. */
  function SetSubtitlesSize(o: Overlays, size: int, inVr: bool, desktopSize: int -> int): (r: Overlays)
    ensures o.subtitles.None? ==> r == o
    ensures o.subtitles.Some? ==> r.subtitles == Some(o.subtitles.value.(fontSize := FontSize(size, inVr, desktopSize)))
    ensures r.pending == o.pending && r.fadeImg == o.fadeImg
  {
    if o.subtitles.None? then o
    else o.(subtitles := Some(o.subtitles.value.(fontSize := FontSize(size, inVr, desktopSize))))
  }

  /** Both size sliders store Mathf.Round(value) and hand that to the size callback. */
  function SubtitlesSizeSlider(o: Overlays, value: real, inVr: bool, desktopSize: int -> int): (r: Overlays)
    ensures o.subtitles.None? ==> r == o
    ensures o.subtitles.Some? ==> r.subtitles == Some(o.subtitles.value.(fontSize := FontSize(RoundHalfEven(value), inVr, desktopSize)))
    ensures r.pending == o.pending && r.fadeImg == o.fadeImg
    ensures o.subtitles.Some? && inVr ==> r.subtitles.value.fontSize % 5 == 0
    ensures o.subtitles.Some? && inVr ==> -2.5 <= 5.0 * value - r.subtitles.value.fontSize as real <= 2.5
  {
    SetSubtitlesSize(o, RoundHalfEven(value), inVr, desktopSize)
  }

  function RemoveAt<T>(s: seq<T>, i: nat): (r: seq<T>)
    requires i < |s|
    ensures |r| == |s| - 1
    ensures forall k :: 0 <= k < i ==> r[k] == s[k]
    ensures forall k :: i <= k < |r| ==> r[k] == s[k + 1]
  {
    s[..i] + s[i + 1..]
  }

  /** The host runs pending invocation i: it leaves the list and its method runs.
      FadeIn reads the fade-in time current when it fires. */
  function Fire(o: Overlays, i: nat, fadeInTime: real): (r: Result<Overlays>)
    requires i < |o.pending|
    ensures o.pending[i].callback == CallFadeIn ==> r == FadeIn(o.(pending := RemoveAt(o.pending, i)), fadeInTime)
    ensures o.pending[i].callback == CallHideSubtitles ==> r == Success(HideSubtitles(o.(pending := RemoveAt(o.pending, i))))
  {
    var rest := o.(pending := RemoveAt(o.pending, i));
    match o.pending[i].callback
    case CallFadeIn => FadeIn(rest, fadeInTime)
    case CallHideSubtitles => Success(HideSubtitles(rest))
  }

  // ---------------------------------------------------------------------------
  // Properties relating several transitions

  /** A fade trigger overwrites the fade layer entirely: the last trigger decides it. */
  lemma LastFadeTriggerWins(o: Overlays, fadeInTime: real, fadeOutTime: real)
    requires o.fadeImg.Some?
    ensures FadeIn(FadeOut(o, fadeOutTime).value, fadeInTime) == FadeIn(o, fadeInTime)
    ensures FadeOut(FadeIn(o, fadeInTime).value, fadeOutTime) == FadeOut(o, fadeOutTime)
  {
  }

  /** When the fade-in scheduled by TestFadeOut fires, the overlays are as if only FadeIn had run. */
  lemma TestFadeOutThenScheduledFadeIn(o: Overlays, fadeInTime: real, fadeOutTime: real)
    requires o.fadeImg.Some?
    ensures var t := TestFadeOut(o, fadeOutTime).value;
      Fire(t, |t.pending| - 1, fadeInTime) == FadeIn(o, fadeInTime)
  {
    var t := TestFadeOut(o, fadeOutTime).value;
    assert RemoveAt(t.pending, |t.pending| - 1) == o.pending;
  }

  /** When the hide scheduled by the 5-second show fires, the text is as after a permanent show and a hide. */
  lemma ShowFor5SecsThenScheduledHide(o: Overlays)
    requires o.subtitles.Some?
    ensures var t := ShowSubtitles5Secs(o);
      Fire(t, |t.pending| - 1, 0.0) == Success(HideSubtitles(ShowSubtitlesPermanent(o)))
  {
    var t := ShowSubtitles5Secs(o);
    assert RemoveAt(t.pending, |t.pending| - 1) == o.pending;
  }

  /** Hiding twice is hiding once. */
  lemma HideIdempotent(o: Overlays)
    ensures HideSubtitles(HideSubtitles(o)) == HideSubtitles(o)
  {
  }

  /** The two layers are independent: a fade trigger and a subtitle show commute. */
  lemma FadeCommutesWithSubtitles(o: Overlays, fadeInTime: real)
    requires o.fadeImg.Some?
    ensures FadeIn(ShowSubtitles5Secs(o), fadeInTime) == Success(ShowSubtitles5Secs(FadeIn(o, fadeInTime).value))
    ensures FadeIn(HideSubtitles(o), fadeInTime) == Success(HideSubtitles(FadeIn(o, fadeInTime).value))
  {
  }

  /** The chooser label that selects an anchor. */
  function ChoiceFor(a: TextAnchor): string
    requires a != UpperLeft
  {
    match a
    case LowerCenter => AlignmentChoices[0]
    case MiddleCenter => AlignmentChoices[1]
    case UpperCenter => AlignmentChoices[2]
  }

  /** The three alignment choices and the three anchors they select correspond one to one. */
  lemma AlignmentChoicesBijective()
    ensures forall a: TextAnchor :: a != UpperLeft ==> ChoiceFor(a) in AlignmentChoices && AlignmentFor(ChoiceFor(a)) == a
    ensures forall i :: 0 <= i < |AlignmentChoices| ==> ChoiceFor(AlignmentFor(AlignmentChoices[i])) == AlignmentChoices[i]
  {
  }

  /** Rounding leaves whole numbers alone, and the nearest integer is the only one within half a unit. */
  lemma RoundHalfEvenProperties(x: real, m: int)
    ensures RoundHalfEven(m as real) == m
    ensures -0.5 < x - m as real < 0.5 ==> RoundHalfEven(x) == m
  {
  }
}
