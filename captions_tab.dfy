/** `CaptionsTab`: the edits the captions panel makes to the caption settings */
module CaptionsTab {
  import opened Js
  import opened EditorTypes

  /** `applyPreset`: the style and its five preset fields; whether captions are
      on, where they sit and what they say stay as they were */
  function ApplyPreset(s: CaptionSettings, style: CaptionStyle): (r: CaptionSettings)
    ensures r.style == style && PresetOf(r) == CaptionStylePresets(style)
    ensures r.enabled == s.enabled && r.position == s.position && r.text == s.text
  {
    var p := CaptionStylePresets(style);
    s.(style := style, fontFamily := p.fontFamily, fontSize := p.fontSize, textColor := p.textColor,
       backgroundColor := p.backgroundColor, backgroundOpacity := p.backgroundOpacity)
  }

  /** A preset chosen after any other preset gives the same settings as choosing
      it alone */
  lemma PresetOverrides(s: CaptionSettings, a: CaptionStyle, b: CaptionStyle)
    ensures ApplyPreset(ApplyPreset(s, a), b) == ApplyPreset(s, b)
  {
  }

  /** The enable switch */
  function SetEnabled(s: CaptionSettings, enabled: bool): (r: CaptionSettings)
    ensures r.enabled == enabled
    ensures r.(enabled := s.enabled) == s
  {
    s.(enabled := enabled)
  }

  /** The position select */
  function SetPosition(s: CaptionSettings, position: CaptionPosition): (r: CaptionSettings)
    ensures r.position == position
    ensures r.(position := s.position) == s
  {
    s.(position := position)
  }

  /** A value a slider from `min` to `max` in steps of `step` can report */
  predicate OnSlider(v: int, min: int, max: int, step: nat)
  {
    min <= v <= max && 0 < step && (v - min) % step == 0
  }

  /** The font-size slider, from 12 to 48 in steps of 1 */
  function SetFontSize(s: CaptionSettings, v: int): (r: CaptionSettings)
    ensures r.fontSize == v as real
    ensures OnSlider(v, 12, 48, 1) ==> 12.0 <= r.fontSize <= 48.0
    ensures r.(fontSize := s.fontSize) == s
  {
    s.(fontSize := v as real)
  }

  /** The opacity slider, from 0 to 100 in steps of 5, read as a fraction */
  function SetOpacity(s: CaptionSettings, v: int): (r: CaptionSettings)
    ensures r.backgroundOpacity * 100.0 == v as real
    ensures OnSlider(v, 0, 100, 5) ==> 0.0 <= r.backgroundOpacity <= 1.0
    ensures r.(backgroundOpacity := s.backgroundOpacity) == s
  {
    s.(backgroundOpacity := v as real / 100.0)
  }

  /** The percentage shown beside the opacity slider */
  function OpacityPercent(s: CaptionSettings): int
  {
    Round(s.backgroundOpacity * 100.0)
  }

  /** The label beside the opacity slider shows the slider's own value */
  lemma OpacityLabelShowsSlider(s: CaptionSettings, v: int)
    ensures OpacityPercent(SetOpacity(s, v)) == v
  {
  }

  /** Every preset puts the font size and the opacity at positions the sliders
      can show */
  lemma PresetsOnSliders(s: CaptionSettings, style: CaptionStyle)
    ensures var r := ApplyPreset(s, style);
      r.fontSize.Floor as real == r.fontSize && OnSlider(r.fontSize.Floor, 12, 48, 1) &&
      0 <= OpacityPercent(r) <= 100
  {
  }
}
