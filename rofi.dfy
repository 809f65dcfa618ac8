/**
 * The host renderer as the engine sees it: the mode object (`Mode* sw`) that
 * carries the private data and the displayed prompt, and the view
 * (`RofiViewState*`) that receives calls. The view is modelled by the trace
 * of calls it receives.
 */
module Rofi {
  import opened Optional
  import opened BlocksModeData

  /** One call into the renderer. */
  datatype Action =
    | SetIcon(icon: Option<string>)          // rofi_view_set_icon
    | SetCaseSensitive(caseSensitive: bool)  // rofi_view_set_case_sensitive
    | SetOverlay(text: Option<string>)       // rofi_view_set_overlay, None hides it
    | SetPlaceholder(text: Option<string>)   // rofi_view_set_placeholder, None hides it
    | ClearInput                             // rofi_view_clear_input
    | HandleText(typed: string)              // rofi_view_handle_text
    | SwitchMode(displayName: Option<string>) // rofi_view_switch_mode after display_name changed
    | SetSelectedLine(index: int)            // rofi_view_set_selected_line
    | Reload                                 // rofi_view_reload

  datatype ActionKind =
    | IconCall | CaseSensitiveCall | OverlayCall | PlaceholderCall
    | ClearInputCall | HandleTextCall | SwitchModeCall | SelectCall | ReloadCall

  function KindOf(a: Action): ActionKind {
    match a
    case SetIcon(_) => IconCall
    case SetCaseSensitive(_) => CaseSensitiveCall
    case SetOverlay(_) => OverlayCall
    case SetPlaceholder(_) => PlaceholderCall
    case ClearInput => ClearInputCall
    case HandleText(_) => HandleTextCall
    case SwitchMode(_) => SwitchModeCall
    case SetSelectedLine(_) => SelectCall
    case Reload => ReloadCall
  }

  /** How many calls of kind `k` a trace holds. */
  function Count(calls: seq<Action>, k: ActionKind): nat
    decreases |calls|
  {
    if calls == [] then 0
    else (if KindOf(calls[0]) == k then 1 else 0) + Count(calls[1..], k)
  }

  lemma {:induction false} CountAppend(a: seq<Action>, b: seq<Action>, k: ActionKind)
    ensures Count(a + b, k) == Count(a, k) + Count(b, k)
    decreases |a|
  {
    if a == [] {
      assert a + b == b;
    } else {
      assert (a + b)[1..] == a[1..] + b;
      CountAppend(a[1..], b, k);
    }
  }

  /** `RofiViewState`: the calls the renderer has received so far. */
  class View {
    var calls: seq<Action>

    constructor ()
      ensures calls == []
    {
      calls := [];
    }
  }

  /** `Mode`: the mode's private data and the prompt it displays. */
  class Mode {
    var displayName: Option<string>
    const data: ModeData

    constructor (data: ModeData, displayName: Option<string>)
      ensures this.data == data && this.displayName == displayName
    {
      this.data := data;
      this.displayName := displayName;
    }
  }
}
