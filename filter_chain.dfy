/**
 * main.py's colour presets and `build_filter_chain`, which assembles the
 * ffmpeg `-vf` argument of the first conversion: optional chroma key, optional
 * preset, then the fixed 512x512 geometry and pixel-format stages.
 */
module FilterChain {
  import opened Wrappers
  import opened Strs

  type UserId = nat

  const Presets: map<string, string> := map[
    "vivid" := "eq=contrast=1.25:saturation=1.4:brightness=0.02",
    "warm" := "curves=r='0/0 0.4/0.5 1/1':g='0/0 0.5/0.6 1/1'",
    "cool" := "curves=g='0/0 0.4/0.45 1/1':b='0/0 0.45/0.6 1/1'",
    "cinema" := "eq=contrast=1.1:brightness=0.01:saturation=0.95,vignette=PI/4",
    "bw" := "hue=s=0",
    "retro" := "colorchannelmixer=.393:.769:.189:0:.349:.686:.168:0:.272:.534:.131",
    "hdr" := "eq=brightness=0.03:contrast=1.3:saturation=1.05",
    "soft" := "boxblur=2:1",
    "sharp" := "unsharp=5:5:1.0",
    "clean" := "eq=contrast=1.05:saturation=1.08"
  ]

  const DefaultPreset: string := "clean"

  const FormatRgba: string := "format=rgba"
  const ScaleDecrease: string := "scale=512:512:force_original_aspect_ratio=decrease"
  const PadCentred: string := "pad=512:512:(ow-iw)/2:(oh-ih)/2:color=black@0"
  const FormatYuva: string := "format=yuva420p"

  /** The three closing stages: fit inside 512x512, pad to the centre, pixel format with alpha. */
  const Geometry: seq<string> := [ScaleDecrease, PadCentred, FormatYuva]

  function ColorKey(hex: string): string {
    "colorkey=0x" + hex + ":0.25:0.08"
  }

  /** Python's truthiness of `chroma_hex: str | None`: neither None nor "". */
  predicate ChromaOn(chroma: Option<string>) {
    chroma.Some? && chroma.value != ""
  }

  /** The list `parts` that `build_filter_chain` appends to, in append order. */
  function Stages(presetFilter: string, chroma: Option<string>): seq<string> {
    (if ChromaOn(chroma) then [ColorKey(chroma.value), FormatRgba] else [])
    + (if presetFilter != "" then [presetFilter] else [])
    + Geometry
  }

  /** `",".join(parts)`. */
  function BuildFilterChain(presetFilter: string, chroma: Option<string>): string {
    Join(Stages(presetFilter, chroma), ",")
  }

  /**
   * The stage list: chroma key and `format=rgba` first exactly when chroma is
   * set, the preset next exactly when it is non-empty, the geometry last.
   */
  lemma StagesOrder(presetFilter: string, chroma: Option<string>)
    ensures var parts := Stages(presetFilter, chroma);
      var lead := if ChromaOn(chroma) then 2 else 0;
      var pre := if presetFilter != "" then 1 else 0;
      && |parts| == lead + pre + 3
      && (ChromaOn(chroma) ==> parts[0] == ColorKey(chroma.value) && parts[1] == FormatRgba)
      && (presetFilter != "" ==> parts[lead] == presetFilter)
      && parts[lead + pre..] == Geometry
  {
  }

  /** The stages after the chroma prefix, joined: the preset and a comma when present, then the geometry. */
  lemma PresetTailText(presetFilter: string)
    ensures Join((if presetFilter != "" then [presetFilter] else []) + Geometry, ",")
         == (if presetFilter != "" then presetFilter + "," else "") + Join(Geometry, ",")
  {
    if presetFilter != "" {
      JoinAppend([presetFilter], Geometry, ",");
    } else {
      assert [] + Geometry == Geometry;
    }
  }

  /** The chroma prefix joined: the colour key, a comma, `format=rgba`. */
  lemma ChromaLeadText(hex: string)
    ensures Join([ColorKey(hex), FormatRgba], ",") == ColorKey(hex) + "," + FormatRgba
  {
    var lead := [ColorKey(hex), FormatRgba];
    assert lead[1..] == [FormatRgba];
  }

  /**
   * The chain as a string: the chroma prefix when chroma is set, then the
   * preset and a comma when the preset is non-empty, and always the geometry
   * tail `scale=...decrease,pad=...,format=yuva420p`.
   */
  lemma {:induction false} ChainText(presetFilter: string, chroma: Option<string>)
    ensures BuildFilterChain(presetFilter, chroma) ==
      (if ChromaOn(chroma) then ColorKey(chroma.value) + "," + FormatRgba + "," else "")
      + (if presetFilter != "" then presetFilter + "," else "")
      + Join(Geometry, ",")
  {
    var tail := (if presetFilter != "" then [presetFilter] else []) + Geometry;
    PresetTailText(presetFilter);
    if ChromaOn(chroma) {
      var lead := [ColorKey(chroma.value), FormatRgba];
      assert Stages(presetFilter, chroma) == lead + tail;
      JoinAppend(lead, tail, ",");
      ChromaLeadText(chroma.value);
    } else {
      assert Stages(presetFilter, chroma) == [] + tail == tail;
    }
  }

  /** With chroma set the chain starts with the colour key and then `format=rgba`. */
  lemma ChainStartsWithChromaKey(presetFilter: string, chroma: Option<string>)
    requires ChromaOn(chroma)
    ensures StartsWith(BuildFilterChain(presetFilter, chroma), ColorKey(chroma.value) + "," + FormatRgba + ",")
  {
    ChainText(presetFilter, chroma);
  }

  /** Every chain ends with the geometry stages, joined by commas. */
  lemma ChainEndsWithGeometry(presetFilter: string, chroma: Option<string>)
    ensures EndsWith(BuildFilterChain(presetFilter, chroma), Join(Geometry, ","))
  {
    ChainText(presetFilter, chroma);
  }

  /** Without chroma and without a preset the chain is the geometry alone. */
  lemma ChainWithoutOptions()
    ensures BuildFilterChain("", None) == ScaleDecrease + "," + PadCentred + "," + FormatYuva
  {
    ChainText("", None);
  }

  /** `PRESETS.get(user_preset.get(uid, "clean"), PRESETS["clean"])`. */
  function PresetFilterFor(userPreset: map<UserId, string>, uid: UserId): (f: string)
    ensures f in Presets.Values
    ensures uid in userPreset && userPreset[uid] in Presets ==> f == Presets[userPreset[uid]]
    ensures !(uid in userPreset && userPreset[uid] in Presets) ==> f == Presets[DefaultPreset]
  {
    var key := if uid in userPreset then userPreset[uid] else DefaultPreset;
    if key in Presets then Presets[key] else Presets[DefaultPreset]
  }

  /** `user_chroma.get(uid)`. */
  function ChromaFor(userChroma: map<UserId, string>, uid: UserId): (c: Option<string>)
    ensures c.Some? <==> uid in userChroma
    ensures c.Some? ==> c.value == userChroma[uid]
  {
    if uid in userChroma then Some(userChroma[uid]) else None
  }

  /** No preset filter is empty, so the preset stage is always present in practice. */
  lemma PresetsNonEmpty(key: string)
    requires key in Presets
    ensures Presets[key] != ""
  {
  }
}
