/**
 * bot/handlers/photo.py: the `PhotoState` dialogue. A photo is saved under
 * the user's path, an effect button moves the dialogue to the caption step,
 * and "no_text" or a text message renders the sticker and finishes the
 * dialogue. Both render handlers call `Image.open` without importing
 * `Image`; they are modelled as written and, separately, with the import.
 */
module PhotoHandler {
  import opened Wrappers
  import opened Strs
  import opened Markup
  import opened Storage
  import opened Fsm
  import opened ImageEffects

  /** `f"/tmp/photo_{user_id}.jpg"`. */
  function PhotoPath(uid: nat): (path: string)
    ensures StartsWith(path, "/tmp/photo_") && EndsWith(path, ".jpg")
  {
    "/tmp/photo_" + NatToString(uid) + ".jpg"
  }

  /** Two users never share a photo path. */
  lemma PhotoPathInjective(a: nat, b: nat)
    requires PhotoPath(a) == PhotoPath(b)
    ensures a == b
  {
    var n := |"/tmp/photo_"|;
    assert NatToString(a) == PhotoPath(a)[n..|PhotoPath(a)| - 4];
    assert NatToString(b) == PhotoPath(b)[n..|PhotoPath(b)| - 4];
    NatToStringInjective(a, b);
  }

  /** The three buttons `photo_start` offers. */
  function EffectKeyboard(): seq<Button> {
    [Button("FIRE", "eff_fire"), Button("NEON", "eff_neon"), Button("GLITCH", "eff_glitch")]
  }

  /** `data.split("_")[1]`: None where the split has one piece (`IndexError`). */
  function EffectField(data: string): (r: Option<string>)
    ensures r.Some? <==> '_' in data
    ensures r.Some? ==> '_' !in r.value
  {
    var pieces := Split(data, '_');
    SplitsInTwoExactlyWithSeparator(data, '_');
    SplitPiecesFree(data, '_');
    if |pieces| >= 2 then Some(pieces[1]) else None
  }

  /** Data the `eff_` filter admits always has a field 1: the text up to the next underscore. */
  lemma {:induction false} EffectFieldAfterPrefix(name: string)
    ensures EffectField("eff_" + name) == Some(Split(name, '_')[0])
    ensures '_' !in name ==> EffectField("eff_" + name) == Some(name)
  {
    var prefix := "eff";
    assert '_' !in prefix by {
      assert prefix == ['e', 'f', 'f'];
    }
    assert "eff_" + name == prefix + ['_'] + name;
    SplitAfterPrefix(prefix, '_', name);
    if '_' !in name {
      SplitWithoutSeparator(name, '_');
    }
  }

  /** Every button of the keyboard names an effect of the dispatch table. */
  lemma KeyboardEffectsDispatch()
    ensures forall b :: b in EffectKeyboard() ==>
      StartsWith(b.data, "eff_") && EffectField(b.data).Some? && EffectNamed(EffectField(b.data).value).Some?
  {
    forall b | b in EffectKeyboard()
      ensures StartsWith(b.data, "eff_") && EffectField(b.data).Some? && EffectNamed(EffectField(b.data).value).Some?
    {
      var name := if b.data == "eff_fire" then "fire" else if b.data == "eff_neon" then "neon" else "glitch";
      assert b.data == "eff_" + name;
      ButtonDispatches(name);
    }
  }

  /** The button data `eff_<name>` of one of the three effects: admitted, split back to the name, found in the table. */
  lemma ButtonDispatches(name: string)
    requires name == "fire" || name == "neon" || name == "glitch"
    ensures StartsWith("eff_" + name, "eff_") && EffectField("eff_" + name) == Some(name) && EffectNamed(name).Some?
  {
    assert '_' !in name;
    EffectFieldAfterPrefix(name);
  }

  /** What a dialogue in each state must have stored: the photo path, and from the caption step on the effect. */
  predicate Consistent(state: State, data: map<string, string>) {
    && (state == PhotoEffect ==> "path" in data)
    && (state == PhotoCaption ==> "path" in data && "effect" in data)
  }

  /**
   * The render step with `Image` imported: open the stored path, look the
   * stored effect up, draw the caption, send. Each lookup that fails raises
   * before the sticker is sent.
   */
  function RenderOutcome(data: map<string, string>, files: map<string, seq<byte>>, caption: string, sendOk: bool)
    : (r: Result<Picture, Fault>)
    ensures "path" !in data ==> r == Err(KeyError("path"))
    ensures r.Ok? <==> && "path" in data && data["path"] in files && "effect" in data
                       && EffectNamed(data["effect"]).Some? && sendOk
    ensures r.Ok? ==> r.value == Effect(EffectNamed(data["effect"]).value, files[data["path"]], caption)
  {
    if "path" !in data then Err(KeyError("path"))
    else if data["path"] !in files then Err(FileNotFound(data["path"]))
    else if "effect" !in data then Err(KeyError("effect"))
    else match EffectNamed(data["effect"])
      case None => Err(KeyError(data["effect"]))
      case Some(effect) =>
        if sendOk then Ok(Effect(effect, files[data["path"]], caption)) else Err(SendFailed)
  }

  /**
   * A dialogue that went photo, button, caption renders the user's own photo
   * with the button's effect and the caption (or the effect's name).
   */
  lemma ButtonDialogueRenders(uid: nat, photo: seq<byte>, files: map<string, seq<byte>>, b: Button, caption: string)
    requires b in EffectKeyboard()
    requires PhotoPath(uid) in files && files[PhotoPath(uid)] == photo
    ensures var data := map["path" := PhotoPath(uid), "effect" := EffectField(b.data).value];
      var r := RenderOutcome(data, files, caption, true);
      && r.Ok?
      && r.value.photo == photo
      && r.value.lines == CaptionLines(if caption == "" then DefaultCaption(r.value.effect) else caption)
  {
    KeyboardEffectsDispatch();
  }

  /** Any stored name outside "fire", "neon", "glitch" fails the lookup, whatever else is stored. */
  lemma UnknownEffectFails(data: map<string, string>, files: map<string, seq<byte>>, caption: string, sendOk: bool)
    requires "effect" in data && data["effect"] !in {"fire", "neon", "glitch"}
    ensures RenderOutcome(data, files, caption, sendOk).Err?
  {
  }

  /** `photo_start`: offer the keyboard, save the photo, store its path, enter the effect step. */
  method PhotoStart(ctx: Context, disk: Disk, uid: nat, photo: seq<byte>) returns (keyboard: seq<Button>)
    modifies ctx, disk
    ensures keyboard == EffectKeyboard()
    ensures disk.files == old(disk.files)[PhotoPath(uid) := photo]
    ensures ctx.data == old(ctx.data)["path" := PhotoPath(uid)] && ctx.state == PhotoEffect
    ensures Consistent(ctx.state, ctx.data)
  {
    keyboard := EffectKeyboard();
    var path := PhotoPath(uid);
    disk.Write(path, photo);
    ctx.UpdateData("path", path);
    ctx.SetState(PhotoEffect);
  }

  /**
   * `choose_effect`: field 1 of the data split on "_" is stored as the effect,
   * unchecked, and the dialogue moves to the caption step. Data without an
   * underscore raises before anything changes.
   */
  method ChooseEffect(ctx: Context, data: string) returns (r: Result<string, Fault>)
    modifies ctx
    ensures r.Err? <==> '_' !in data
    ensures r.Err? ==> r.error == IndexError && ctx.state == old(ctx.state) && ctx.data == old(ctx.data)
    ensures r.Ok? ==> && EffectField(data) == Some(r.value)
                      && ctx.data == old(ctx.data)["effect" := r.value]
                      && ctx.state == PhotoCaption
    ensures Consistent(old(ctx.state), old(ctx.data)) && old(ctx.state) == PhotoEffect ==> Consistent(ctx.state, ctx.data)
  {
    var pieces := Split(data, '_');
    SplitsInTwoExactlyWithSeparator(data, '_');
    if |pieces| < 2 {
      return Err(IndexError);
    }
    var effect := pieces[1];
    ctx.UpdateData("effect", effect);
    ctx.SetState(PhotoCaption);
    r := Ok(effect);
  }

  /** The body `no_caption` and `with_caption` share once `Image` is imported. */
  method Render(ctx: Context, disk: Disk, caption: string, sendOk: bool) returns (r: Result<Picture, Fault>)
    modifies ctx
    ensures r == RenderOutcome(old(ctx.data), disk.files, caption, sendOk)
    ensures r.Ok? ==> ctx.state == Idle && ctx.data == map[]
    ensures r.Err? ==> ctx.state == old(ctx.state) && ctx.data == old(ctx.data)
  {
    if "path" !in ctx.data {
      return Err(KeyError("path"));
    }
    var path := ctx.data["path"];
    if path !in disk.files {
      return Err(FileNotFound(path));
    }
    var photo := disk.files[path];
    if "effect" !in ctx.data {
      return Err(KeyError("effect"));
    }
    var name := ctx.data["effect"];
    var effect := EffectNamed(name);
    if effect.None? {
      return Err(KeyError(name));
    }
    var picture := Effect(effect.value, photo, caption);
    if !sendOk {
      return Err(SendFailed);
    }
    ctx.Finish();
    r := Ok(picture);
  }

  /** `no_caption` with `Image` imported: render with the empty caption. */
  method NoCaption(ctx: Context, disk: Disk, sendOk: bool) returns (r: Result<Picture, Fault>)
    modifies ctx
    ensures r == RenderOutcome(old(ctx.data), disk.files, "", sendOk)
    ensures r.Ok? ==> ctx.state == Idle && ctx.data == map[] && r.value.lines == [DefaultCaption(r.value.effect)]
    ensures r.Err? ==> ctx.state == old(ctx.state) && ctx.data == old(ctx.data)
  {
    r := Render(ctx, disk, "", sendOk);
    if r.Ok? {
      EmptyCaptionDrawsName(r.value.effect);
    }
  }

  /** `with_caption` with `Image` imported: render with the message text. */
  method WithCaption(ctx: Context, disk: Disk, text: string, sendOk: bool) returns (r: Result<Picture, Fault>)
    modifies ctx
    ensures r == RenderOutcome(old(ctx.data), disk.files, text, sendOk)
    ensures r.Ok? ==> ctx.state == Idle && ctx.data == map[]
    ensures r.Err? ==> ctx.state == old(ctx.state) && ctx.data == old(ctx.data)
  {
    r := Render(ctx, disk, text, sendOk);
  }

  /** `no_caption` as written: `Image` is an unbound name, so it raises before reading anything. */
  method NoCaptionAsWritten(ctx: Context, disk: Disk) returns (r: Result<Picture, Fault>)
    ensures r == Err(NameError("Image"))
  {
    r := Err(NameError("Image"));
  }

  /** `with_caption` as written: the same `NameError`, whatever the text. */
  method WithCaptionAsWritten(ctx: Context, disk: Disk, text: string) returns (r: Result<Picture, Fault>)
    ensures r == Err(NameError("Image"))
  {
    r := Err(NameError("Image"));
  }

  /**
   * As written the caption step is never left: the failing handler does not
   * finish, so the user stays in it, where a new photo or video reaches no
   * handler and every text reaches the failing `with_caption` again.
   */
  lemma CaptionStepTraps(text: string, data: string)
    ensures Route(PhotoCaption, PhotoMessage) == NoHandler
    ensures Route(PhotoCaption, VideoMessage) == NoHandler
    ensures Route(PhotoCaption, TextMessage(text)) == Handler.WithCaption
    ensures Route(PhotoCaption, CallbackQuery(data)) in {Handler.NoCaption, NoHandler}
  {
  }
}
