/**
 * The reconciler (`on_new_input`, src/blocks.c): for every line the framer
 * publishes, snapshot seven page members, apply the line, compare old and
 * new members with the three-state equality, issue one renderer call per
 * changed member, rebuild the token set when the filter or the case
 * sensitivity changed, push a pending focus, and reload the view.
 */
module Reconciler {
  import opened Optional
  import opened Json
  import opened PageData
  import opened BlocksModeData
  import opened Rofi
  import opened LineFramer

  /** The members `on_new_input` copies before applying a line. */
  datatype Snapshot = Snapshot(
    overlay: Option<string>,
    prompt: Option<string>,
    placeholder: Option<string>,
    icon: Option<string>,
    input: Option<string>,
    filter: Option<string>,
    caseSensitive: bool)

  function SnapshotOf(p: PageValue): Snapshot {
    Snapshot(p.overlay, p.prompt, p.placeholder, p.icon, p.input, p.filter, p.caseSensitive)
  }

  /** `(unsigned int)` of a 64-bit integer: the value modulo 2^32. */
  const UintModulus: int := 0x1_0000_0000

  /** The token set must be rebuilt when the case sensitivity or the filter changed. */
  predicate FilterChanged(before: Snapshot, after: Snapshot) {
    before.caseSensitive != after.caseSensitive || !IsStringEqual(before.filter, after.filter)
  }

  /** A text shown when it is defined and non-empty; hidden (NULL) otherwise. */
  function ShownOrHidden(s: Option<string>): (r: Option<string>)
    ensures r.Some? <==> s.Some? && s.value != ""
    ensures r.Some? ==> r == s
  {
    if s.Some? && |s.value| > 0 then s else None
  }

  function IconCalls(before: Snapshot, after: Snapshot): seq<Action> {
    if !IsStringEqual(before.icon, after.icon) then [SetIcon(after.icon)] else []
  }

  function CaseSensitiveCalls(before: Snapshot, after: Snapshot): seq<Action> {
    if FilterChanged(before, after) then [SetCaseSensitive(after.caseSensitive)] else []
  }

  function OverlayCalls(before: Snapshot, after: Snapshot): seq<Action> {
    if !IsStringEqual(before.overlay, after.overlay) then [SetOverlay(ShownOrHidden(after.overlay))] else []
  }

  function PlaceholderCalls(before: Snapshot, after: Snapshot): seq<Action> {
    if !IsStringEqual(before.placeholder, after.placeholder) then [SetPlaceholder(ShownOrHidden(after.placeholder))] else []
  }

  function InputCalls(before: Snapshot, after: Snapshot): seq<Action>
    requires after.input.Some?
  {
    if !IsStringEqual(before.input, after.input) then [ClearInput, HandleText(after.input.value)] else []
  }

  function PromptCalls(before: Snapshot, after: Snapshot): seq<Action> {
    if !IsStringEqual(before.prompt, after.prompt) then [SwitchMode(after.prompt)] else []
  }

  function FocusCalls(entryToFocus: int): seq<Action> {
    if entryToFocus >= 0 then [SetSelectedLine(entryToFocus % UintModulus)] else []
  }

  /** The calls for the icon and the token set. */
  function IconAndTokenCalls(before: Snapshot, after: Snapshot): seq<Action> {
    IconCalls(before, after) + CaseSensitiveCalls(before, after)
  }

  /** The calls for the overlay, the placeholder and the input. */
  function TextCalls(before: Snapshot, after: Snapshot): seq<Action>
    requires after.input.Some?
  {
    OverlayCalls(before, after) + PlaceholderCalls(before, after) + InputCalls(before, after)
  }

  /** The calls for the prompt and the focus, and the closing reload. */
  function PromptFocusReloadCalls(before: Snapshot, after: Snapshot, entryToFocus: int): seq<Action> {
    PromptCalls(before, after) + FocusCalls(entryToFocus) + [Reload]
  }

  /** Every renderer call one processed line issues, in the source's order. */
  function ReconcileActions(before: Snapshot, after: Snapshot, entryToFocus: int): (r: seq<Action>)
    requires after.input.Some?
    ensures |r| > 0 && r[|r| - 1] == Reload
  {
    IconAndTokenCalls(before, after) + TextCalls(before, after) + PromptFocusReloadCalls(before, after, entryToFocus)
  }

  /** The token set after a line: rebuilt from the new filter when it must be, kept otherwise. */
  function TokensAfter(tokens: Option<Tokens>, before: Snapshot, after: Snapshot): Option<Tokens> {
    if FilterChanged(before, after) then
      (if after.filter.None? then None else Tokenize(after.filter.value, after.caseSensitive))
    else tokens
  }

  /** The displayed prompt after a line: replaced by the new prompt when it changed. */
  function DisplayNameAfter(displayName: Option<string>, before: Snapshot, after: Snapshot): Option<string> {
    if !IsStringEqual(before.prompt, after.prompt) then after.prompt else displayName
  }

  /** The token set is the one built from the current filter and case sensitivity (none without a filter). */
  ghost predicate TokensInSync(tokens: Option<Tokens>, filter: Option<string>, caseSensitive: bool) {
    tokens == if filter.None? then None else Tokenize(filter.value, caseSensitive)
  }

  /** Rebuilding on change keeps the token set tied to the last filter and case sensitivity. */
  lemma TokensStayInSync(tokens: Option<Tokens>, before: Snapshot, after: Snapshot)
    requires TokensInSync(tokens, before.filter, before.caseSensitive)
    ensures TokensInSync(TokensAfter(tokens, before, after), after.filter, after.caseSensitive)
  {
  }

  /** The engine's invariant: decoded members that must stay defined are, and the token set matches the filter. */
  ghost predicate EngineValid(sw: Mode)
    reads sw.data, sw.data.page
  {
    sw.data.Valid() && TokensInSync(sw.data.tokens, sw.data.page.filter, sw.data.page.caseSensitive)
  }

  /** `[a]` holds one call of kind `k` exactly when `a` is of that kind. */
  lemma CountOne(a: Action, k: ActionKind)
    ensures Count([a], k) == if KindOf(a) == k then 1 else 0
  {
    assert [a][1..] == [];
  }

  /** Each segment issues one call of its own kind when its member changed and nothing otherwise. */
  lemma IconCount(before: Snapshot, after: Snapshot, k: ActionKind)
    ensures Count(IconCalls(before, after), k) == if k == IconCall && before.icon != after.icon then 1 else 0
  {
    if before.icon != after.icon { CountOne(SetIcon(after.icon), k); }
  }

  lemma CaseSensitiveCount(before: Snapshot, after: Snapshot, k: ActionKind)
    ensures Count(CaseSensitiveCalls(before, after), k) == if k == CaseSensitiveCall && FilterChanged(before, after) then 1 else 0
  {
    if FilterChanged(before, after) { CountOne(SetCaseSensitive(after.caseSensitive), k); }
  }

  lemma OverlayCount(before: Snapshot, after: Snapshot, k: ActionKind)
    ensures Count(OverlayCalls(before, after), k) == if k == OverlayCall && before.overlay != after.overlay then 1 else 0
  {
    if before.overlay != after.overlay { CountOne(SetOverlay(ShownOrHidden(after.overlay)), k); }
  }

  lemma PlaceholderCount(before: Snapshot, after: Snapshot, k: ActionKind)
    ensures Count(PlaceholderCalls(before, after), k) == if k == PlaceholderCall && before.placeholder != after.placeholder then 1 else 0
  {
    if before.placeholder != after.placeholder { CountOne(SetPlaceholder(ShownOrHidden(after.placeholder)), k); }
  }

  lemma InputCount(before: Snapshot, after: Snapshot, k: ActionKind)
    requires after.input.Some?
    ensures Count(InputCalls(before, after), k) ==
      (if k == ClearInputCall && before.input != after.input then 1 else 0)
      + (if k == HandleTextCall && before.input != after.input then 1 else 0)
  {
    if before.input != after.input {
      assert InputCalls(before, after) == [ClearInput] + [HandleText(after.input.value)];
      CountAppend([ClearInput], [HandleText(after.input.value)], k);
      CountOne(ClearInput, k);
      CountOne(HandleText(after.input.value), k);
    }
  }

  lemma PromptCount(before: Snapshot, after: Snapshot, k: ActionKind)
    ensures Count(PromptCalls(before, after), k) == if k == SwitchModeCall && before.prompt != after.prompt then 1 else 0
  {
    if before.prompt != after.prompt { CountOne(SwitchMode(after.prompt), k); }
  }

  lemma FocusCount(entryToFocus: int, k: ActionKind)
    ensures Count(FocusCalls(entryToFocus), k) == if k == SelectCall && entryToFocus >= 0 then 1 else 0
  {
    if entryToFocus >= 0 { CountOne(SetSelectedLine(entryToFocus % UintModulus), k); }
  }

  lemma IconAndTokenCount(before: Snapshot, after: Snapshot, k: ActionKind)
    ensures Count(IconAndTokenCalls(before, after), k) ==
      (if k == IconCall && before.icon != after.icon then 1 else 0)
      + (if k == CaseSensitiveCall && FilterChanged(before, after) then 1 else 0)
  {
    IconCount(before, after, k);
    CaseSensitiveCount(before, after, k);
    CountAppend(IconCalls(before, after), CaseSensitiveCalls(before, after), k);
  }

  lemma TextCount(before: Snapshot, after: Snapshot, k: ActionKind)
    requires after.input.Some?
    ensures Count(TextCalls(before, after), k) ==
      (if k == OverlayCall && before.overlay != after.overlay then 1 else 0)
      + (if k == PlaceholderCall && before.placeholder != after.placeholder then 1 else 0)
      + (if k == ClearInputCall && before.input != after.input then 1 else 0)
      + (if k == HandleTextCall && before.input != after.input then 1 else 0)
  {
    OverlayCount(before, after, k);
    PlaceholderCount(before, after, k);
    InputCount(before, after, k);
    CountAppend(OverlayCalls(before, after), PlaceholderCalls(before, after), k);
    CountAppend(OverlayCalls(before, after) + PlaceholderCalls(before, after), InputCalls(before, after), k);
  }

  lemma PromptFocusReloadCount(before: Snapshot, after: Snapshot, entryToFocus: int, k: ActionKind)
    ensures Count(PromptFocusReloadCalls(before, after, entryToFocus), k) ==
      (if k == SwitchModeCall && before.prompt != after.prompt then 1 else 0)
      + (if k == SelectCall && entryToFocus >= 0 then 1 else 0)
      + (if k == ReloadCall then 1 else 0)
  {
    PromptCount(before, after, k);
    FocusCount(entryToFocus, k);
    CountOne(Reload, k);
    CountAppend(PromptCalls(before, after), FocusCalls(entryToFocus), k);
    CountAppend(PromptCalls(before, after) + FocusCalls(entryToFocus), [Reload], k);
  }

  /** How many calls of each kind one processed line issues, segment by segment. */
  lemma {:induction false} CountSegments(before: Snapshot, after: Snapshot, entryToFocus: int, k: ActionKind)
    requires after.input.Some?
    ensures Count(ReconcileActions(before, after, entryToFocus), k) ==
      (if k == IconCall && before.icon != after.icon then 1 else 0)
      + (if k == CaseSensitiveCall && FilterChanged(before, after) then 1 else 0)
      + (if k == OverlayCall && before.overlay != after.overlay then 1 else 0)
      + (if k == PlaceholderCall && before.placeholder != after.placeholder then 1 else 0)
      + (if k == ClearInputCall && before.input != after.input then 1 else 0)
      + (if k == HandleTextCall && before.input != after.input then 1 else 0)
      + (if k == SwitchModeCall && before.prompt != after.prompt then 1 else 0)
      + (if k == SelectCall && entryToFocus >= 0 then 1 else 0)
      + (if k == ReloadCall then 1 else 0)
  {
    IconAndTokenCount(before, after, k);
    TextCount(before, after, k);
    PromptFocusReloadCount(before, after, entryToFocus, k);
    CountAppend(IconAndTokenCalls(before, after), TextCalls(before, after), k);
    CountAppend(IconAndTokenCalls(before, after) + TextCalls(before, after), PromptFocusReloadCalls(before, after, entryToFocus), k);
  }

  /**
   * One call per changed member and none for an unchanged one; the token
   * rebuild pushes the case sensitivity once; a pending focus is pushed once;
   * exactly one reload per processed line, and it comes last.
   */
  lemma OneCallPerChange(before: Snapshot, after: Snapshot, entryToFocus: int)
    requires after.input.Some?
    ensures var calls := ReconcileActions(before, after, entryToFocus);
      && Count(calls, IconCall) == (if before.icon == after.icon then 0 else 1)
      && Count(calls, CaseSensitiveCall) == (if FilterChanged(before, after) then 1 else 0)
      && Count(calls, OverlayCall) == (if before.overlay == after.overlay then 0 else 1)
      && Count(calls, PlaceholderCall) == (if before.placeholder == after.placeholder then 0 else 1)
      && Count(calls, ClearInputCall) == (if before.input == after.input then 0 else 1)
      && Count(calls, HandleTextCall) == (if before.input == after.input then 0 else 1)
      && Count(calls, SwitchModeCall) == (if before.prompt == after.prompt then 0 else 1)
      && Count(calls, SelectCall) == (if entryToFocus >= 0 then 1 else 0)
      && Count(calls, ReloadCall) == 1
      && calls[|calls| - 1] == Reload
  {
    CountSegments(before, after, entryToFocus, IconCall);
    CountSegments(before, after, entryToFocus, CaseSensitiveCall);
    CountSegments(before, after, entryToFocus, OverlayCall);
    CountSegments(before, after, entryToFocus, PlaceholderCall);
    CountSegments(before, after, entryToFocus, ClearInputCall);
    CountSegments(before, after, entryToFocus, HandleTextCall);
    CountSegments(before, after, entryToFocus, SwitchModeCall);
    CountSegments(before, after, entryToFocus, SelectCall);
    CountSegments(before, after, entryToFocus, ReloadCall);
  }

  /** A changed input clears the renderer's input and then types the new input, one call right after the other. */
  lemma InputClearedThenTyped(before: Snapshot, after: Snapshot, entryToFocus: int)
    requires after.input.Some? && before.input != after.input
    ensures var calls := ReconcileActions(before, after, entryToFocus);
      var i := |IconCalls(before, after) + CaseSensitiveCalls(before, after) + OverlayCalls(before, after)
                + PlaceholderCalls(before, after)|;
      i + 1 < |calls| && calls[i] == ClearInput && calls[i + 1] == HandleText(after.input.value)
  {
  }

  /** A line that changes none of the seven members issues only the pending focus, if any, and the reload. */
  lemma NoChangeOnlyReloads(s: Snapshot, entryToFocus: int)
    requires s.input.Some?
    ensures ReconcileActions(s, s, entryToFocus) == FocusCalls(entryToFocus) + [Reload]
    ensures entryToFocus < 0 ==> ReconcileActions(s, s, entryToFocus) == [Reload]
  {
  }

  /**
   * Sending the same line twice: the second copy changes nothing, so it
   * issues no call for any of the seven members, only the focus it requests
   * again and the reload.
   */
  lemma ResentLineOnlyReloads(v: DataValue, root: Object)
    requires LinesAreArray(root) && v.page.input.Some?
    ensures var d1 := Decode(v, root);
      var d2 := Decode(d1, root);
      && SnapshotOf(d1.page).input.Some?
      && ReconcileActions(SnapshotOf(d1.page), SnapshotOf(d2.page), d2.entryToFocus)
         == FocusCalls(d1.entryToFocus) + [Reload]
  {
    DecodeKeepsDefined(v, root);
    DecodeIdempotent(v, root);
    NoChangeOnlyReloads(SnapshotOf(Decode(v, root).page), Decode(v, root).entryToFocus);
  }

  /**
   * The placeholder and the input are never cleared to NULL once defined,
   * and a changed one is always defined, so reading their text after a
   * change is safe.
   */
  lemma {:induction false} ChangedPlaceholderIsDefined(v: DataValue, root: Object)
    requires LinesAreArray(root)
    ensures var d := Decode(v, root);
      && (d.page.placeholder != v.page.placeholder ==> d.page.placeholder.Some?)
      && (d.page.input != v.page.input ==> d.page.input.Some?)
  {
    DecodeFieldPolicy(v, root, Placeholder);
    DecodeFieldPolicy(v, root, Input);
  }

  /**
   * The overlay segment as written: `new_overlay->len` is read whenever the
   * overlay changed, also when it changed to NULL. `None` stands for that
   * dereference of a null pointer.
   */
  function OverlayCallsAsWritten(before: Snapshot, after: Snapshot): (r: Option<seq<Action>>)
    ensures r.None? <==> before.overlay.Some? && after.overlay.None?
  {
    if IsStringEqual(before.overlay, after.overlay) then Some([])
    else if after.overlay.None? then None
    else Some([SetOverlay(if |after.overlay.value| > 0 then after.overlay else None)])
  }

  /** The prompt segment as written: `new_prompt->str` is read whenever the prompt changed; `None` is the null dereference. */
  function PromptCallsAsWritten(before: Snapshot, after: Snapshot): (r: Option<seq<Action>>)
    ensures r.None? <==> before.prompt.Some? && after.prompt.None?
  {
    if IsStringEqual(before.prompt, after.prompt) then Some([])
    else if after.prompt.None? then None
    else Some([SwitchMode(after.prompt)])
  }

  /** Where the as-written segments do not dereference NULL they issue exactly the corrected calls; they fail exactly on a change to NULL. */
  lemma AsWrittenAgreesWhenDefined(before: Snapshot, after: Snapshot)
    ensures OverlayCallsAsWritten(before, after).None? <==> before.overlay.Some? && after.overlay.None?
    ensures OverlayCallsAsWritten(before, after).Some? ==> OverlayCallsAsWritten(before, after).value == OverlayCalls(before, after)
    ensures PromptCallsAsWritten(before, after).None? <==> before.prompt.Some? && after.prompt.None?
    ensures PromptCallsAsWritten(before, after).Some? ==> PromptCallsAsWritten(before, after).value == PromptCalls(before, after)
  {
  }

  /**
   * `{"overlay": null}` after an overlay was shown clears the overlay to
   * NULL, the comparison sees a change, and the as-written segment
   * dereferences it; the corrected segment hides the overlay.
   */
  lemma {:induction false} OverlayNullIsDereferenced(v: DataValue)
    requires v.page.overlay.Some?
    ensures var root := map["overlay" := JNull];
      && LinesAreArray(root)
      && Decode(v, root).page.overlay.None?
      && OverlayCallsAsWritten(SnapshotOf(v.page), SnapshotOf(Decode(v, root).page)).None?
      && OverlayCalls(SnapshotOf(v.page), SnapshotOf(Decode(v, root).page)) == [SetOverlay(None)]
  {
    var root := map["overlay" := JNull];
    assert "lines" !in root;
    DecodeFieldPolicy(v, root, Overlay);
  }

  /** `{"prompt": null}` after a prompt was set: the as-written segment dereferences NULL; the corrected one shows no prompt. */
  lemma {:induction false} PromptNullIsDereferenced(v: DataValue)
    requires v.page.prompt.Some?
    ensures var root := map["prompt" := JNull];
      && LinesAreArray(root)
      && Decode(v, root).page.prompt.None?
      && PromptCallsAsWritten(SnapshotOf(v.page), SnapshotOf(Decode(v, root).page)).None?
      && PromptCalls(SnapshotOf(v.page), SnapshotOf(Decode(v, root).page)) == [SwitchMode(None)]
  {
    var root := map["prompt" := JNull];
    assert "lines" !in root;
    DecodeFieldPolicy(v, root, Prompt);
  }

  /** The icon and the token set: push a changed icon; rebuild the tokens and push the case sensitivity when the filter or it changed. */
  method ReconcileIconAndTokens(data: ModeData, view: View, before: Snapshot)
    modifies data`tokens, view
    ensures var after := SnapshotOf(data.page.Value());
      && data.tokens == TokensAfter(old(data.tokens), before, after)
      && view.calls == old(view.calls) + IconAndTokenCalls(before, after)
  {
    var page := data.page;
    var newIcon := page.icon;
    var newFilter := page.filter;
    var newCaseSensitive := page.caseSensitive;
    if !IsStringEqual(before.icon, newIcon) {
      view.calls := view.calls + [SetIcon(newIcon)];
    }
    if before.caseSensitive != newCaseSensitive || !IsStringEqual(before.filter, newFilter) {
      data.tokens := if newFilter.None? then None else Tokenize(newFilter.value, newCaseSensitive);
      view.calls := view.calls + [SetCaseSensitive(newCaseSensitive)];
    }
  }

  /** The overlay, the placeholder and the input: push each one that changed. */
  method ReconcileTexts(page: Page, view: View, before: Snapshot)
    requires page.input.Some?
    modifies view
    ensures var after := SnapshotOf(page.Value());
      view.calls == old(view.calls) + TextCalls(before, after)
  {
    var newOverlay := page.overlay;
    var newPlaceholder := page.placeholder;
    var newInput := page.input;
    ghost var after := SnapshotOf(page.Value());
    if !IsStringEqual(before.overlay, newOverlay) {
      view.calls := view.calls + [SetOverlay(if newOverlay.Some? && |newOverlay.value| > 0 then newOverlay else None)];
    }
    if !IsStringEqual(before.placeholder, newPlaceholder) {
      view.calls := view.calls + [SetPlaceholder(if newPlaceholder.Some? && |newPlaceholder.value| > 0 then newPlaceholder else None)];
    }
    ghost var issued := view.calls;
    assert issued == old(view.calls) + OverlayCalls(before, after) + PlaceholderCalls(before, after);
    if !IsStringEqual(before.input, newInput) {
      view.calls := view.calls + [ClearInput];
      view.calls := view.calls + [HandleText(newInput.value)];
      assert view.calls == issued + [ClearInput, HandleText(newInput.value)];
    }
  }

  /** The prompt, the focus and the reload: replace a changed prompt, push a pending focus, reload. */
  method ReconcilePromptAndFocus(sw: Mode, view: View, before: Snapshot)
    modifies sw`displayName, view
    ensures var after := SnapshotOf(sw.data.page.Value());
      && sw.displayName == DisplayNameAfter(old(sw.displayName), before, after)
      && view.calls == old(view.calls) + PromptFocusReloadCalls(before, after, sw.data.entryToFocus)
  {
    var newPrompt := sw.data.page.prompt;
    if !IsStringEqual(before.prompt, newPrompt) {
      sw.displayName := newPrompt;
      view.calls := view.calls + [SwitchMode(sw.displayName)];
    }
    if sw.data.entryToFocus >= 0 {
      view.calls := view.calls + [SetSelectedLine(sw.data.entryToFocus % UintModulus)];
    }
    view.calls := view.calls + [Reload];
  }

  /**
   * The comparison half of the `on_new_input` loop body: given the members
   * copied before the decoder ran, issue one renderer call per changed
   * member, rebuild the token set and replace the prompt when they changed,
   * push a pending focus and reload.
   */
  method Reconcile(sw: Mode, view: View, before: Snapshot)
    requires sw.data.Valid()
    requires TokensInSync(sw.data.tokens, before.filter, before.caseSensitive)
    modifies sw`displayName, sw.data`tokens, view
    ensures EngineValid(sw)
    ensures var after := SnapshotOf(sw.data.page.Value());
      && after.input.Some?
      && sw.data.tokens == TokensAfter(old(sw.data.tokens), before, after)
      && sw.displayName == DisplayNameAfter(old(sw.displayName), before, after)
      && view.calls == old(view.calls) + ReconcileActions(before, after, sw.data.entryToFocus)
  {
    ghost var after := SnapshotOf(sw.data.page.Value());
    ReconcileIconAndTokens(sw.data, view, before);
    ghost var c1 := view.calls;
    ReconcileTexts(sw.data.page, view, before);
    ghost var c2 := view.calls;
    ReconcilePromptAndFocus(sw, view, before);
    assert SnapshotOf(sw.data.page.Value()) == after;
    assert view.calls == old(view.calls) + ReconcileActions(before, after, sw.data.entryToFocus) by {
      var s1 := IconAndTokenCalls(before, after);
      var s2 := TextCalls(before, after);
      var s3 := PromptFocusReloadCalls(before, after, sw.data.entryToFocus);
      assert view.calls == old(view.calls) + s1 + s2 + s3;
    }
    TokensStayInSync(old(sw.data.tokens), before, after);
  }

  /** What `on_new_input` changes: the private data, the displayed prompt and the calls the renderer has received. */
  datatype EngineState = EngineState(data: DataValue, displayName: Option<string>, calls: seq<Action>)

  /** Applying a line the parser accepts or rejects keeps the input defined and leaves the framer's state alone. */
  lemma ApplyLineKeepsInput(v: DataValue, parse: string -> Option<Json>)
    requires YieldsPages(parse) && v.page.input.Some?
    ensures ApplyLine(v, parse(v.activeLine)).page.input.Some?
    ensures ApplyLine(v, parse(v.activeLine)).buffer == v.buffer
    ensures ApplyLine(v, parse(v.activeLine)).activeLine == v.activeLine
  {
    if parse(v.activeLine).Some? {
      DecodeKeepsDefined(v, parse(v.activeLine).value.members);
      DecodeFrame(v, parse(v.activeLine).value.members);
    }
  }

  /**
   * One pass of the `on_new_input` loop body for the active line the framer
   * has just published: copy the seven members, apply the line, rebuild the
   * tokens and the prompt, and append the line's renderer calls.
   */
  function ApplyPublished(e: EngineState, parse: string -> Option<Json>): (r: EngineState)
    requires YieldsPages(parse) && e.data.page.input.Some?
    ensures r.data.page.input.Some?
    ensures r.data.buffer == e.data.buffer && r.data.activeLine == e.data.activeLine
    ensures e.calls <= r.calls
  {
    var before := SnapshotOf(e.data.page);
    var v := ApplyLine(e.data, parse(e.data.activeLine));
    ApplyLineKeepsInput(e.data, parse);
    var after := SnapshotOf(v.page);
    EngineState(v.(tokens := TokensAfter(e.data.tokens, before, after)),
                DisplayNameAfter(e.displayName, before, after),
                e.calls + ReconcileActions(before, after, v.entryToFocus))
  }

  /** Each processed line reloads the view exactly once. */
  lemma ApplyPublishedReloadsOnce(e: EngineState, parse: string -> Option<Json>)
    requires YieldsPages(parse) && e.data.page.input.Some?
    ensures Count(ApplyPublished(e, parse).calls, ReloadCall) == Count(e.calls, ReloadCall) + 1
  {
    var before := SnapshotOf(e.data.page);
    var v := ApplyLine(e.data, parse(e.data.activeLine));
    ApplyLineKeepsInput(e.data, parse);
    var after := SnapshotOf(v.page);
    OneCallPerChange(before, after, v.entryToFocus);
    CountAppend(e.calls, ReconcileActions(before, after, v.entryToFocus), ReloadCall);
  }

  /**
   * `on_new_input` as a fold over what the channel holds: the framer's
   * attempts one after the other, each published line applied in the order
   * it arrived, until an attempt publishes nothing.
   */
  ghost function Run(e: EngineState, unread: string, parse: string -> Option<Json>): (r: EngineState)
    requires YieldsPages(parse) && e.data.page.input.Some?
    ensures r.data.page.input.Some?
    ensures e.calls <= r.calls
    decreases |unread|
  {
    var f := Scan(e.data.buffer, e.data.activeLine, unread);
    var framed := e.(data := e.data.(buffer := f.buffer, activeLine := f.activeLine));
    if f.published then Run(ApplyPublished(framed, parse), f.unread, parse) else framed
  }

  /** The fold reloads once per line the channel holds and leaves the unterminated rest in the buffer. */
  lemma {:induction false} RunDrains(e: EngineState, unread: string, parse: string -> Option<Json>)
    requires YieldsPages(parse) && e.data.page.input.Some?
    ensures var d := Drain(e.data.buffer, unread);
      && Run(e, unread, parse).data.buffer == d.buffer
      && Count(Run(e, unread, parse).calls, ReloadCall) == Count(e.calls, ReloadCall) + d.lines
    decreases |unread|
  {
    var f := Scan(e.data.buffer, e.data.activeLine, unread);
    var framed := e.(data := e.data.(buffer := f.buffer, activeLine := f.activeLine));
    DrainStep(e.data.buffer, e.data.activeLine, unread);
    if f.published {
      ApplyPublishedReloadsOnce(framed, parse);
      RunDrains(ApplyPublished(framed, parse), f.unread, parse);
    }
  }

  /** Text without a terminator is only buffered: nothing is applied and the renderer receives no call. */
  lemma RunWithoutNewline(e: EngineState, unread: string, parse: string -> Option<Json>)
    requires YieldsPages(parse) && e.data.page.input.Some?
    requires '\n' !in unread
    ensures Run(e, unread, parse) == e.(data := e.data.(buffer := e.data.buffer + unread))
  {
    ScanWithoutNewline(e.data.buffer, e.data.activeLine, unread);
  }

  /**
   * Lines are applied one at a time in the order they arrive: the first
   * complete line, with what was buffered before it, is applied before
   * anything after it is read.
   */
  lemma RunAppliesFirstLineFirst(e: EngineState, w: string, rest: string, parse: string -> Option<Json>)
    requires YieldsPages(parse) && e.data.page.input.Some?
    requires '\n' !in w && |e.data.buffer + w| > 0
    ensures var line := e.data.buffer + w + "\n";
      Run(e, w + "\n" + rest, parse)
        == Run(ApplyPublished(e.(data := e.data.(buffer := [], activeLine := line)), parse), rest, parse)
  {
    ScanPublishesLine(e.data.buffer, e.data.activeLine, w, rest);
  }

  /** A keep-alive line between two lines is skipped: it applies nothing and issues no call. */
  lemma RunSkipsKeepAlive(e: EngineState, rest: string, parse: string -> Option<Json>)
    requires YieldsPages(parse) && e.data.page.input.Some? && e.data.buffer == []
    ensures Run(e, "\n" + rest, parse) == Run(e, rest, parse)
  {
    ScanSkipsKeepAlive(e.data.activeLine, rest);
  }

  /** The decoder's half of the loop body: apply the active line; the input stays defined and the tokens are untouched. */
  method ApplyActiveLine(data: ModeData, parse: string -> Option<Json>)
    requires data.Valid() && YieldsPages(parse)
    modifies data, data.page
    ensures data.Valid()
    ensures data.Value() == ApplyLine(old(data.Value()), parse(old(data.activeLine)))
    ensures data.tokens == old(data.tokens) && data.writeChannel == old(data.writeChannel)
  {
    ghost var v0 := data.Value();
    data.UpdatePage(parse);
    ApplyLineKeepsInput(v0, parse);
    if parse(v0.activeLine).Some? {
      DecodeFrame(v0, parse(v0.activeLine).value.members);
    }
    assert data.tokens == data.Value().tokens;
  }

  /**
   * The body of the `on_new_input` loop for the line the framer has just
   * published: copy the seven members, let the decoder apply the line, then
   * reconcile the renderer with what changed.
   */
  method HandleLine(sw: Mode, view: View, parse: string -> Option<Json>)
    requires EngineValid(sw) && YieldsPages(parse)
    modifies sw`displayName, sw.data, sw.data.page, view
    ensures EngineValid(sw)
    ensures EngineState(sw.data.Value(), sw.displayName, view.calls)
      == ApplyPublished(EngineState(old(sw.data.Value()), old(sw.displayName), old(view.calls)), parse)
    ensures sw.data.writeChannel == old(sw.data.writeChannel)
  {
    var data := sw.data;
    var before := SnapshotOf(data.page.Value());
    ApplyActiveLine(data, parse);
    Reconcile(sw, view, before);
  }

  /** One step of draining the channel: the framer's attempt, whatever the active line was. */
  lemma {:induction false} DrainStep(buffer: string, activeLine: string, unread: string)
    ensures var f := Scan(buffer, activeLine, unread);
      && (f.published ==> Drain(buffer, unread) == Drained(Drain(f.buffer, f.unread).lines + 1, Drain(f.buffer, f.unread).buffer))
      && (!f.published ==> Drain(buffer, unread) == Drained(0, f.buffer))
  {
    ScanIgnoresActiveLine(buffer, activeLine, [], unread);
  }

  /** The framer's attempt inside `on_new_input`, stated as one unfolding of `Run`. */
  method FrameNextLine(sw: Mode, view: View, source: IOChannel, ghost parse: string -> Option<Json>) returns (published: bool)
    requires EngineValid(sw) && YieldsPages(parse)
    modifies sw.data`buffer, sw.data`activeLine, source`unread
    ensures EngineValid(sw)
    ensures var e := EngineState(sw.data.Value(), sw.displayName, view.calls);
      old(Run(EngineState(sw.data.Value(), sw.displayName, view.calls), source.unread, parse))
        == if published then Run(ApplyPublished(e, parse), source.unread, parse) else e
    ensures published ==> |source.unread| < old(|source.unread|)
    ensures !published ==> source.unread == []
  {
    ghost var e0 := EngineState(sw.data.Value(), sw.displayName, view.calls);
    ghost var f := Scan(e0.data.buffer, e0.data.activeLine, source.unread);
    published := NextLine(sw.data, source);
    assert EngineState(sw.data.Value(), sw.displayName, view.calls)
      == e0.(data := e0.data.(buffer := f.buffer, activeLine := f.activeLine));
  }

  /** One pass of the `on_new_input` loop: handle the published line, then let the framer try for the next one. */
  method HandleThenFrame(sw: Mode, view: View, source: IOChannel, parse: string -> Option<Json>) returns (published: bool)
    requires EngineValid(sw) && YieldsPages(parse)
    modifies sw`displayName, sw.data, sw.data.page, view, source`unread
    ensures EngineValid(sw)
    ensures sw.data.writeChannel == old(sw.data.writeChannel)
    ensures var e := EngineState(sw.data.Value(), sw.displayName, view.calls);
      old(Run(ApplyPublished(EngineState(sw.data.Value(), sw.displayName, view.calls), parse), source.unread, parse))
        == if published then Run(ApplyPublished(e, parse), source.unread, parse) else e
    ensures published ==> |source.unread| < old(|source.unread|)
    ensures !published ==> source.unread == []
  {
    HandleLine(sw, view, parse);
    published := FrameNextLine(sw, view, source, parse);
  }

  /**
   * `on_new_input`: applies every line the framer can publish from what the
   * channel holds, in order, as `Run` says; one reload per line, and the
   * unterminated rest stays in the buffer.
   */
  method OnNewInput(sw: Mode, view: View, source: IOChannel, parse: string -> Option<Json>)
    requires EngineValid(sw) && YieldsPages(parse)
    modifies sw`displayName, sw.data, sw.data.page, view, source`unread
    ensures EngineValid(sw)
    ensures source.unread == []
    ensures EngineState(sw.data.Value(), sw.displayName, view.calls)
      == Run(EngineState(old(sw.data.Value()), old(sw.displayName), old(view.calls)), old(source.unread), parse)
    ensures var d := Drain(old(sw.data.buffer), old(source.unread));
      && sw.data.buffer == d.buffer
      && Count(view.calls, ReloadCall) == Count(old(view.calls), ReloadCall) + d.lines
    ensures sw.data.writeChannel == old(sw.data.writeChannel)
  {
    ghost var start := EngineState(sw.data.Value(), sw.displayName, view.calls);
    ghost var goal := Run(start, source.unread, parse);
    RunDrains(start, source.unread, parse);
    var published := FrameNextLine(sw, view, source, parse);
    while published
      invariant EngineValid(sw)
      invariant sw.data.writeChannel == old(sw.data.writeChannel)
      invariant published ==>
        Run(ApplyPublished(EngineState(sw.data.Value(), sw.displayName, view.calls), parse), source.unread, parse) == goal
      invariant !published ==>
        source.unread == [] && EngineState(sw.data.Value(), sw.displayName, view.calls) == goal
      decreases if published then |source.unread| + 1 else 0
    {
      published := HandleThenFrame(sw, view, source, parse);
    }
  }
}
