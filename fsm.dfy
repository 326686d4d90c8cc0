/**
 * The aiogram 2 finite-state machine one user's dialogue runs in: a state
 * (none, or one of the photo and video states) and a data dictionary, shared
 * by the photo and video handlers, plus the dispatcher's rule for which
 * handler an update reaches.
 */
module Fsm {
  import opened Strs

  /** `PhotoState.effect`, `PhotoState.caption`, `VideoState.waiting`, or no state. */
  datatype State = Idle | PhotoEffect | PhotoCaption | VideoWaiting

  /** What a handler raises when it stops early. */
  datatype Fault =
    | KeyError(key: string)
    | IndexError
    | NameError(name: string)
    | FileNotFound(path: string)
    | SendFailed

  /** `FSMContext` for one user. */
  class Context {
    var state: State
    var data: map<string, string>

    constructor ()
      ensures state == Idle && data == map[]
    {
      state, data := Idle, map[];
    }

    /** `SomeState.set()`: the data is kept. */
    method SetState(s: State)
      modifies this
      ensures state == s && data == old(data)
    {
      state := s;
    }

    /** `state.update_data(key=value)`: merged into the existing data. */
    method UpdateData(key: string, value: string)
      modifies this
      ensures data == old(data)[key := value] && state == old(state)
    {
      data := data[key := value];
    }

    /** `state.finish()`: state and data both reset. */
    method Finish()
      modifies this
      ensures state == Idle && data == map[]
    {
      state, data := Idle, map[];
    }
  }

  /** The kinds of update the handlers are registered for. */
  datatype Update =
    | PhotoMessage
    | VideoMessage
    | TextMessage(text: string)
    | CallbackQuery(data: string)

  /** The handlers of bot/handlers/photo.py and bot/handlers/video.py. */
  datatype Handler = PhotoStart | ChooseEffect | NoCaption | WithCaption | VideoStart | ApplyEffect | NoHandler

  /**
   * aiogram 2's choice: a handler registered without `state=` fires only when
   * no state is set; the others only in the state they name.
   */
  function Route(s: State, u: Update): Handler {
    match u
    case PhotoMessage => if s == Idle then PhotoStart else NoHandler
    case VideoMessage => if s == Idle then VideoStart else NoHandler
    case TextMessage(_) => if s == PhotoCaption then WithCaption else NoHandler
    case CallbackQuery(d) =>
      if s == PhotoEffect && StartsWith(d, "eff_") then ChooseEffect
      else if s == PhotoCaption && d == "no_text" then NoCaption
      else if s == VideoWaiting && StartsWith(d, "vfx_") then ApplyEffect
      else NoHandler
  }

  /**
   * Each handler is reached in exactly one state, so a photo dialogue and a
   * video dialogue never interleave for one user.
   */
  lemma RouteStates(s: State, u: Update)
    ensures Route(s, u) in {PhotoStart, VideoStart} ==> s == Idle
    ensures Route(s, u) == ChooseEffect ==> s == PhotoEffect && u.CallbackQuery? && StartsWith(u.data, "eff_")
    ensures Route(s, u) in {NoCaption, WithCaption} ==> s == PhotoCaption
    ensures Route(s, u) == ApplyEffect ==> s == VideoWaiting && u.CallbackQuery? && StartsWith(u.data, "vfx_")
    ensures s == PhotoCaption && u.TextMessage? ==> Route(s, u) == WithCaption
  {
  }
}
