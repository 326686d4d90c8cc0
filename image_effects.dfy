/**
 * bot/effects/image.py: the caption layout of `add_caption`, the default
 * captions of the three photo effects and the row roll of `glitch_effect`.
 * Pixels, background removal, blur, contrast and font metrics stay
 * uninterpreted: the font's `textlength` is a parameter.
 */
module ImageEffects {
  import opened Wrappers
  import opened Strs
  import opened Fsm

  /** Draw one line: position, text, fill colour, stroke width and stroke colour. */
  datatype DrawCall = DrawCall(x: int, y: int, line: string, fill: string, strokeWidth: nat, stroke: string)

  /** The four fills each line is drawn with, in order. */
  const Palette: seq<string> := ["#FF00FF", "#00FFFF", "#FFFF00", "white"]

  const StrokeWidth: nat := 12
  const StrokeColour: string := "black"

  /** How far above the middle the first top moves per line, and the distance between line tops. */
  const HalfLine: nat := 70
  const LineStep: nat := 140

  /** `[l for l in lines if l.strip()]`. */
  function NonBlank(lines: seq<string>): (kept: seq<string>)
    ensures |kept| <= |lines|
    ensures forall i :: 0 <= i < |kept| ==> !Blank(kept[i])
    ensures kept == [] <==> forall i :: 0 <= i < |lines| ==> Blank(lines[i])
  {
    if lines == [] then []
    else if Blank(lines[0]) then NonBlank(lines[1..])
    else [lines[0]] + NonBlank(lines[1..])
  }

  /** `[...][:2]`: the first two. */
  function TakeTwo(lines: seq<string>): (first: seq<string>)
    ensures |first| == if |lines| < 2 then |lines| else 2
    ensures first == lines[..|first|]
  {
    if |lines| <= 2 then lines else lines[..2]
  }

  /** The lines `add_caption` draws: the upper-cased text split on "\n", blank lines dropped, at most two. */
  function CaptionLines(text: string): (lines: seq<string>)
    ensures |lines| <= 2
    ensures forall i :: 0 <= i < |lines| ==> !Blank(lines[i])
  {
    TakeTwo(NonBlank(Split(Upper(text), '\n')))
  }

  /** The filter keeps a single line exactly when it is not blank. */
  lemma NonBlankSingle(l: string)
    ensures NonBlank([l]) == if Blank(l) then [] else [l]
  {
    assert [l][1..] == [];
  }

  /** The filter works line by line: filtering a concatenation concatenates the filtered parts, in order. */
  lemma {:induction false} NonBlankAppend(xs: seq<string>, ys: seq<string>)
    ensures NonBlank(xs + ys) == NonBlank(xs) + NonBlank(ys)
    decreases |xs|
  {
    if xs != [] {
      assert (xs + ys)[0] == xs[0];
      assert (xs + ys)[1..] == xs[1..] + ys;
      NonBlankAppend(xs[1..], ys);
    } else {
      assert xs + ys == ys;
    }
  }

  /** Upper-casing a line keeps it a single line, and blank exactly when it was. */
  lemma UpperKeepsLine(a: string)
    requires '\n' !in a
    ensures '\n' !in Upper(a)
    ensures Blank(Upper(a)) <==> Blank(a)
  {
    forall i | 0 <= i < |a|
      ensures Upper(a)[i] != '\n'
    {
      assert a[i] != '\n';
    }
  }

  /** Upper-casing the first line and the rest separately, then splitting, splits off the first line. */
  lemma SplitUpperFirstLine(a: string, rest: string)
    requires '\n' !in a
    ensures Split(Upper(a + "\n" + rest), '\n') == [Upper(a)] + Split(Upper(rest), '\n')
  {
    UpperAppend(a, "\n" + rest);
    UpperAppend("\n", rest);
    assert Upper("\n") == "\n";
    UpperKeepsLine(a);
    assert Upper(a + "\n" + rest) == Upper(a) + ['\n'] + Upper(rest);
    SplitAfterPrefix(Upper(a), '\n', Upper(rest));
  }

  /** Two leading lines split off one after the other. */
  lemma SplitUpperTwoLines(a: string, b: string, rest: string)
    requires '\n' !in a && '\n' !in b
    ensures Split(Upper(a + "\n" + b + "\n" + rest), '\n') == [Upper(a), Upper(b)] + Split(Upper(rest), '\n')
  {
    assert a + "\n" + b + "\n" + rest == a + "\n" + (b + "\n" + rest);
    SplitUpperFirstLine(a, b + "\n" + rest);
    SplitUpperFirstLine(b, rest);
    assert [Upper(a)] + ([Upper(b)] + Split(Upper(rest), '\n')) == [Upper(a), Upper(b)] + Split(Upper(rest), '\n');
  }

  /** Filtering two leading lines and a tail filters each in turn. */
  lemma NonBlankPair(x: string, y: string, tail: seq<string>)
    ensures NonBlank([x, y] + tail) == NonBlank([x]) + NonBlank([y]) + NonBlank(tail)
  {
    NonBlankAppend([x, y], tail);
    assert [x, y] == [x] + [y];
    NonBlankAppend([x], [y]);
  }

  /** Two non-blank first lines are drawn, upper-cased, and whatever follows them is not. */
  lemma FirstTwoLinesDrawn(a: string, b: string, rest: string)
    requires '\n' !in a && '\n' !in b && !Blank(a) && !Blank(b)
    ensures CaptionLines(a + "\n" + b + "\n" + rest) == [Upper(a), Upper(b)]
  {
    SplitUpperTwoLines(a, b, rest);
    UpperKeepsLine(a);
    UpperKeepsLine(b);
    NonBlankPair(Upper(a), Upper(b), Split(Upper(rest), '\n'));
    NonBlankSingle(Upper(a));
    NonBlankSingle(Upper(b));
  }

  /** A blank line between two lines is skipped, so the line after it is the second one drawn. */
  lemma BlankLineSkipped(a: string, blank: string, b: string)
    requires '\n' !in a && '\n' !in blank && '\n' !in b && !Blank(a) && Blank(blank) && !Blank(b)
    ensures CaptionLines(a + "\n" + blank + "\n" + b) == [Upper(a), Upper(b)]
  {
    SplitUpperTwoLines(a, blank, b);
    UpperKeepsLine(a);
    UpperKeepsLine(blank);
    UpperKeepsLine(b);
    SplitWithoutSeparator(Upper(b), '\n');
    NonBlankPair(Upper(a), Upper(blank), [Upper(b)]);
    NonBlankSingle(Upper(a));
    NonBlankSingle(Upper(blank));
    NonBlankSingle(Upper(b));
  }

  /** A string whose pieces are all blank, joined by a whitespace separator, is blank. */
  lemma {:induction false} JoinBlank(pieces: seq<string>, sep: char)
    requires IsSpace(sep)
    requires forall i :: 0 <= i < |pieces| ==> Blank(pieces[i])
    ensures Blank(Join(pieces, [sep]))
    decreases |pieces|
  {
    if |pieces| > 1 {
      JoinBlank(pieces[1..], sep);
    }
  }

  /** A blank piece of a split is a run of the string's characters. */
  lemma {:induction false} SplitPiecesOfBlank(s: string, sep: char)
    requires Blank(s)
    ensures forall i :: 0 <= i < |Split(s, sep)| ==> Blank(Split(s, sep)[i])
    decreases |s|
  {
    if s != [] {
      SplitPiecesOfBlank(s[1..], sep);
    }
  }

  /**
   * Nothing is drawn exactly when the text is blank after `strip()`: the early
   * return of `add_caption` and the empty line list agree.
   */
  lemma CaptionLinesEmptyIffBlank(text: string)
    ensures CaptionLines(text) == [] <==> Blank(text)
  {
    var up := Upper(text);
    assert Blank(up) <==> Blank(text);
    var pieces := Split(up, '\n');
    if Blank(text) {
      SplitPiecesOfBlank(up, '\n');
    } else if NonBlank(pieces) == [] {
      SplitJoin(up, '\n');
      JoinBlank(pieces, '\n');
      assert false;
    }
  }

  /** Python's `(w - tw) // 2` on the float `tw`: the floor of half the difference. */
  function LineX(width: nat, textWidth: real): int {
    ((width as real - textWidth) / 2.0).Floor
  }

  /** The top of the first line: `h // 2 - len(lines) * 70`. */
  function FirstLineY(height: nat, lineCount: nat): int {
    height / 2 - lineCount * HalfLine
  }

  /**
   * `add_caption` on a `width` x `height` image: the draw calls it makes, in
   * order. Line k of n is drawn at the top `h // 2 - 70n + 140k`, centred by
   * the font's width of that line, four times with the palette.
   */
  method AddCaption(width: nat, height: nat, text: string, textLength: string -> real)
    returns (calls: seq<DrawCall>)
    ensures Blank(text) ==> calls == []
    ensures var lines := CaptionLines(text);
      && |calls| == |Palette| * |lines|
      && forall k, c :: 0 <= k < |lines| && 0 <= c < |Palette| ==>
           calls[|Palette| * k + c] == DrawCall(LineX(width, textLength(lines[k])),
                                                FirstLineY(height, |lines|) + LineStep * k,
                                                lines[k], Palette[c], StrokeWidth, StrokeColour)
  {
    calls := [];
    CaptionLinesEmptyIffBlank(text);
    if Blank(text) {
      return;
    }
    var lines := NonBlank(Split(Upper(text), '\n'));
    lines := TakeTwo(lines);
    var y := height / 2 - |lines| * HalfLine;
    for k := 0 to |lines|
      invariant y == FirstLineY(height, |lines|) + LineStep * k
      invariant |calls| == |Palette| * k
      invariant forall k', c :: 0 <= k' < k && 0 <= c < |Palette| ==>
        calls[|Palette| * k' + c] == DrawCall(LineX(width, textLength(lines[k'])),
                                              FirstLineY(height, |lines|) + LineStep * k',
                                              lines[k'], Palette[c], StrokeWidth, StrokeColour)
    {
      var tw := textLength(lines[k]);
      var x := ((width as real - tw) / 2.0).Floor;
      for c := 0 to |Palette|
        invariant |calls| == |Palette| * k + c
        invariant forall k', c' :: 0 <= k' < k && 0 <= c' < |Palette| ==>
          calls[|Palette| * k' + c'] == DrawCall(LineX(width, textLength(lines[k'])),
                                                 FirstLineY(height, |lines|) + LineStep * k',
                                                 lines[k'], Palette[c'], StrokeWidth, StrokeColour)
        invariant forall c' :: 0 <= c' < c ==>
          calls[|Palette| * k + c'] == DrawCall(x, y, lines[k], Palette[c'], StrokeWidth, StrokeColour)
      {
        calls := calls + [DrawCall(x, y, lines[k], Palette[c], StrokeWidth, StrokeColour)];
      }
      y := y + LineStep;
    }
  }

  /** The three photo effects the handlers can dispatch to. */
  datatype PhotoEffect = Fire | Neon | Glitch

  /** `caption or "FIRE"` (and "NEON", "GLITCH"): only the empty string is replaced. */
  function EffectCaption(effect: PhotoEffect, caption: string): (text: string)
    ensures caption != "" ==> text == caption
    ensures caption == "" ==> text == DefaultCaption(effect) && !Blank(text)
  {
    if caption != "" then caption else DefaultCaption(effect)
  }

  /** The name drawn when the caption is empty: one non-blank line that upper-casing leaves as it is. */
  function DefaultCaption(effect: PhotoEffect): (name: string)
    ensures !Blank(name) && '\n' !in name && Upper(name) == name
  {
    match effect
    case Fire => assert !IsSpace("FIRE"[0]); "FIRE"
    case Neon => assert !IsSpace("NEON"[0]); "NEON"
    case Glitch => assert !IsSpace("GLITCH"[0]); "GLITCH"
  }

  /** A caption of spaces only is kept as it is, so nothing at all is drawn on the sticker. */
  lemma BlankCaptionDrawsNothing(effect: PhotoEffect, caption: string)
    requires caption != "" && Blank(caption)
    ensures CaptionLines(EffectCaption(effect, caption)) == []
  {
    CaptionLinesEmptyIffBlank(caption);
  }

  /** With no caption given, the effect's name is drawn as the one line. */
  lemma EmptyCaptionDrawsName(effect: PhotoEffect)
    ensures CaptionLines(EffectCaption(effect, "")) == [DefaultCaption(effect)]
  {
    var name := DefaultCaption(effect);
    SplitWithoutSeparator(Upper(name), '\n');
    NonBlankSingle(name);
  }

  /**
   * The effect that runs on a photo: None where the `effects` dictionary has
   * no such key (the lookup raises `KeyError`).
   */
  function EffectNamed(name: string): (e: Option<PhotoEffect>)
    ensures e.Some? <==> name in {"fire", "neon", "glitch"}
    ensures e == Some(Fire) <==> name == "fire"
    ensures e == Some(Neon) <==> name == "neon"
    ensures e == Some(Glitch) <==> name == "glitch"
  {
    if name == "fire" then Some(Fire)
    else if name == "neon" then Some(Neon)
    else if name == "glitch" then Some(Glitch)
    else None
  }

  /**
   * The sticker an effect renders: the photo it was opened from, the effect
   * (contrast, blur or row roll, left uninterpreted) and the caption lines
   * drawn over it.
   */
  datatype Picture = Picture(effect: PhotoEffect, photo: seq<byte>, lines: seq<string>)

  /**
   * `fire_effect`, `neon_effect`, `glitch_effect` as written: `neon_effect`
   * names `ImageFilter`, which the module never imports, so it raises
   * `NameError` before its caption is drawn.
   */
  function EffectAsWritten(effect: PhotoEffect, photo: seq<byte>, caption: string): (r: Result<Picture, Fault>)
    ensures r.Err? <==> effect == Neon
    ensures r.Err? ==> r.error == NameError("ImageFilter")
  {
    if effect == Neon then Err(NameError("ImageFilter"))
    else Ok(Picture(effect, photo, CaptionLines(EffectCaption(effect, caption))))
  }

  /** The three effects with `ImageFilter` imported: each draws its caption, or its name when the caption is empty. */
  function Effect(effect: PhotoEffect, photo: seq<byte>, caption: string): (p: Picture)
    ensures p.effect == effect && p.photo == photo
    ensures caption != "" ==> p.lines == CaptionLines(caption)
    ensures caption == "" ==> p.lines == [DefaultCaption(effect)]
    ensures caption != "" && Blank(caption) ==> p.lines == []
    ensures |p.lines| <= 2
  {
    EmptyCaptionDrawsName(effect);
    if caption != "" && Blank(caption) then
      BlankCaptionDrawsNothing(effect, caption);
      Picture(effect, photo, CaptionLines(EffectCaption(effect, caption)))
    else
      Picture(effect, photo, CaptionLines(EffectCaption(effect, caption)))
  }

  /** Only the neon effect differs: the other two already render what the corrected table does. */
  lemma NeonNeedsImageFilter(photo: seq<byte>, caption: string)
    ensures EffectAsWritten(Neon, photo, caption).Err?
    ensures forall e :: e != Neon ==> EffectAsWritten(e, photo, caption) == Ok(Effect(e, photo, caption))
  {
  }

  /** `np.roll(row, k)`: element c of the result is element `(c - k) mod |row|` of the row. */
  function Roll<T>(row: seq<T>, k: int): (rolled: seq<T>)
    ensures |rolled| == |row|
    ensures forall c :: 0 <= c < |row| ==> rolled[c] == row[(c - k) % |row|]
  {
    if |row| == 0 then row else seq(|row|, c requires 0 <= c < |row| => row[(c - k) % |row|])
  }

  /** Rolling back by the same amount restores the row. */
  lemma RollInverse<T>(row: seq<T>, k: int)
    ensures Roll(Roll(row, k), -k) == row
  {
    var n := |row|;
    if n > 0 {
      forall c | 0 <= c < n
        ensures Roll(Roll(row, k), -k)[c] == row[c]
      {
        var d := (c + k) % n;
        assert Roll(Roll(row, k), -k)[c] == Roll(row, k)[d];
        assert (d - k) % n == c by {
          ModShift(c, k, n);
        }
      }
    }
  }

  /** `((c + k) mod n - k) mod n == c` for 0 <= c < n. */
  lemma ModShift(c: int, k: int, n: int)
    requires 0 <= c < n
    ensures ((c + k) % n - k) % n == c
  {
    var q := (c + k) / n;
    assert (c + k) % n - k == c - q * n;
    ModMultiple(c, -q, n);
  }

  /** Adding a multiple of `n` to a residue in `[0, n)` does not change it modulo `n`. */
  lemma ModMultiple(c: int, q: int, n: int)
    requires 0 <= c < n
    ensures (c + q * n) % n == c
  {
    var a := c + q * n;
    var d := q - a / n;
    assert d * n == a % n - c;
    assert d >= 1 ==> d * n >= n;
    assert d <= -1 ==> d * n <= -n;
  }

  /** The amount `glitch_effect` shifts every eighth row to the right. */
  const GlitchShift: int := 40

  /** Row `r` of `a` rolled `GlitchShift` columns to the right, the other rows untouched. */
  method RollRow<T>(a: array2<T>, r: nat)
    requires r < a.Length0
    modifies a
    ensures forall c :: 0 <= c < a.Length1 ==> a[r, c] == old(a[r, (c - GlitchShift) % a.Length1])
    ensures forall r', c :: 0 <= r' < a.Length0 && r' != r && 0 <= c < a.Length1 ==> a[r', c] == old(a[r', c])
  {
    var row := seq(a.Length1, c requires 0 <= c < a.Length1 reads a => a[r, c]);
    var rolled := Roll(row, GlitchShift);
    for c := 0 to a.Length1
      invariant forall r', c' :: 0 <= r' < a.Length0 && r' != r && 0 <= c' < a.Length1 ==> a[r', c'] == old(a[r', c'])
      invariant forall c' :: 0 <= c' < c ==> a[r, c'] == old(a[r, (c' - GlitchShift) % a.Length1])
      invariant forall c' :: c <= c' < a.Length1 ==> a[r, c'] == old(a[r, c'])
    {
      a[r, c] := rolled[c];
    }
  }

  /**
   * `arr[::8] = np.roll(arr[::8], 40, axis=1)` on an image of `a.Length0`
   * rows and `a.Length1` columns: rows 0, 8, 16, ... are rolled 40 columns to
   * the right, every other row is untouched.
   */
  method GlitchRows<T>(a: array2<T>)
    modifies a
    ensures forall r, c :: 0 <= r < a.Length0 && 0 <= c < a.Length1 ==>
      a[r, c] == if r % 8 == 0 then old(a[r, (c - GlitchShift) % a.Length1]) else old(a[r, c])
  {
    var r := 0;
    while r < a.Length0
      invariant 0 <= r && r % 8 == 0
      invariant forall r', c :: 0 <= r' < a.Length0 && 0 <= c < a.Length1 ==>
        a[r', c] == if r' % 8 == 0 && r' < r then old(a[r', (c - GlitchShift) % a.Length1]) else old(a[r', c])
    {
      RollRow(a, r);
      r := r + 8;
    }
  }
}
